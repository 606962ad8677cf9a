/** An operation that runs through with nothing in between does to the interleaved registry
    what module RegistryBooks says, as the methods of the class `Registry` do. */
module RegistryAlone {
  import opened Text
  import opened RegistryOps
  import opened RegistryInv
  import opened RegistryBooks

  function BooksOf(s: State): Books {
    Books(s.claimed, seq(|s.clients|, i requires 0 <= i < |s.clients| => Names(s, s.clients[i])))
  }

  /** Nobody holds a lock or waits for one. */
  predicate Quiet(s: State) {
    s.clientsQueue == [] && s.readers == {} && s.writer == None && s.claimedQueue == [] && s.claimedBy == None
  }

  predicate Ends(s: State, o: OpId, stage: Stage) {
    o in s.jobs && s.jobs[o].stage == stage
  }

  /** The client has no operation in progress. */
  predicate IsReady(s: State, c: ClientId) {
    c in s.life && s.life[c].Ready?
  }

  /** Who can begin what: a new client can register, a client with nothing in progress can
      claim, release and deregister, and anybody can look a name up. */
  lemma CanBegin(s: State, o: OpId, c: ClientId, h: Host)
    requires o !in s.jobs
    ensures CanStart(s, o, Lookup(h)) && (c !in s.life ==> CanStart(s, o, Register(c)))
    ensures IsReady(s, c) ==> CanStart(s, o, Claim(c, h)) && CanStart(s, o, Release(c, h)) && CanStart(s, o, Deregister(c))
  {
  }

  predicate Runs(s: State, o: OpId, n: nat)
    decreases n
  {
    n == 0 || (CanAdvance(s, o) && Runs(Advance(s, o), o, n - 1))
  }

  /** After `n` steps of `o` and none of any other operation. */
  function Go(s: State, o: OpId, n: nat): State
    requires Runs(s, o, n)
    decreases n
  {
    if n == 0 then s else Go(Advance(s, o), o, n - 1)
  }

  /** `s'` is one step of `o` after `s`. */
  lemma Steps(s: State, o: OpId, n: nat)
    requires CanAdvance(s, o) && Runs(Advance(s, o), o, n)
    ensures Runs(s, o, n + 1) && Go(s, o, n + 1) == Go(Advance(s, o), o, n)
  {
  }

  lemma RegisterAlone(s: State, o: OpId, c: ClientId) returns (n: nat)
    requires Quiet(s) && Distinct(s.clients) && CanStart(s, o, Register(c)) && c !in s.clients
    ensures var s0 := Start(s, o, Register(c));
            && Runs(s0, o, n) && Quiet(Go(s0, o, n)) && Ends(Go(s0, o, n), o, Finished(true))
            && BooksOf(Go(s0, o, n)) == Joined(BooksOf(s)) && IsReady(Go(s0, o, n), c)
  {
    var s0 := Start(s, o, Register(c));
    var s1 := Advance(s0, o);
    var s2 := Advance(s1, o);
    Steps(s1, o, 0);
    Steps(s0, o, 1);
    n := 2;
    assert BooksOf(s2).names == BooksOf(s).names + [{}];
  }

  lemma ClaimAlone(s: State, o: OpId, i: nat, h: Host) returns (n: nat)
    requires Quiet(s) && Distinct(s.clients) && i < |s.clients| && CanStart(s, o, Claim(s.clients[i], h))
    ensures var s0 := Start(s, o, Claim(s.clients[i], h));
            && Runs(s0, o, n) && Quiet(Go(s0, o, n)) && Ends(Go(s0, o, n), o, Finished(h !in s.claimed))
            && BooksOf(Go(s0, o, n)) == Claimed(BooksOf(s), i, h) && IsReady(Go(s0, o, n), s.clients[i])
  {
    var s0 := Start(s, o, Claim(s.clients[i], h));
    var s1 := Advance(s0, o);
    var s2 := Advance(s1, o);
    if h in s.claimed {
      n := 2;
      Steps(s1, o, 0);
      Steps(s0, o, 1);
      assert BooksOf(s2).names == BooksOf(s).names;
    } else {
      n := 3;
      ReservedAlone(s2, o, s.clients[i], h);
      Steps(s1, o, 1);
      Steps(s0, o, 2);
      ClaimedBooks(s, Go(s2, o, 1), i, h);
    }
  }

  /** The second half of a claim. */
  lemma ReservedAlone(s: State, o: OpId, c: ClientId, h: Host)
    requires Quiet(s) && o in s.jobs && s.jobs[o] == Job(Claim(c, h), Reserved)
    ensures Runs(s, o, 1) && Quiet(Go(s, o, 1)) && Ends(Go(s, o, 1), o, Finished(true))
    ensures Go(s, o, 1).clients == s.clients && Go(s, o, 1).claimed == s.claimed
    ensures Go(s, o, 1).names == s.names[c := Names(s, c) + {h}] && IsReady(Go(s, o, 1), c)
  {
    Steps(s, o, 0);
  }

  lemma ClaimedBooks(s: State, s': State, i: nat, h: Host)
    requires Distinct(s.clients) && i < |s.clients| && h !in s.claimed && s'.clients == s.clients
    requires s'.names == s.names[s.clients[i] := Names(s, s.clients[i]) + {h}] && s'.claimed == s.claimed + {h}
    ensures BooksOf(s') == Claimed(BooksOf(s), i, h)
  {
    assert BooksOf(s').names == Claimed(BooksOf(s), i, h).names;
  }

  lemma ReleaseAlone(s: State, o: OpId, i: nat, h: Host) returns (n: nat)
    requires Quiet(s) && Distinct(s.clients) && i < |s.clients| && CanStart(s, o, Release(s.clients[i], h))
    ensures var s0 := Start(s, o, Release(s.clients[i], h));
            && Runs(s0, o, n) && Quiet(Go(s0, o, n))
            && Ends(Go(s0, o, n), o, Finished(h in Names(s, s.clients[i])))
            && BooksOf(Go(s0, o, n)) == Released(BooksOf(s), i, h) && IsReady(Go(s0, o, n), s.clients[i])
  {
    var s0 := Start(s, o, Release(s.clients[i], h));
    var s1 := Advance(s0, o);
    if h !in Names(s, s.clients[i]) {
      n := 1;
      Steps(s0, o, 0);
      assert BooksOf(s1).names == BooksOf(s).names;
    } else {
      n := 3;
      DroppedAlone(s1, o, s.clients[i], h);
      Steps(s0, o, 2);
      ReleasedBooks(s, Go(s1, o, 2), i, h);
    }
  }

  /** The second half of a release. */
  lemma DroppedAlone(s: State, o: OpId, c: ClientId, h: Host)
    requires Quiet(s) && o in s.jobs && s.jobs[o] == Job(Release(c, h), Dropped)
    ensures Runs(s, o, 2) && Quiet(Go(s, o, 2)) && Ends(Go(s, o, 2), o, Finished(true))
    ensures Go(s, o, 2).clients == s.clients && Go(s, o, 2).names == s.names
    ensures Go(s, o, 2).claimed == s.claimed - {h} && IsReady(Go(s, o, 2), c)
  {
    Steps(Advance(s, o), o, 0);
    Steps(s, o, 1);
  }

  lemma ReleasedBooks(s: State, s': State, i: nat, h: Host)
    requires Distinct(s.clients) && i < |s.clients| && h in Names(s, s.clients[i]) && s'.clients == s.clients
    requires s'.names == s.names[s.clients[i] := Names(s, s.clients[i]) - {h}] && s'.claimed == s.claimed - {h}
    ensures BooksOf(s') == Released(BooksOf(s), i, h)
  {
    assert BooksOf(s').names == Released(BooksOf(s), i, h).names;
  }

  lemma IndexOfDistinct(cs: seq<ClientId>, i: nat)
    requires Distinct(cs) && i < |cs|
    ensures IndexOf(cs, cs[i]) == i
  {
  }

  /** Deregister from when it holds the client list. */
  lemma FreeAlone(s: State, o: OpId, c: ClientId)
    requires o in s.jobs && s.jobs[o] == Job(Deregister(c), Removed)
    requires s.claimedQueue == [] && s.claimedBy == None && s.clientsQueue == [] && s.readers == {}
    ensures Runs(s, o, 3) && Quiet(Go(s, o, 3)) && Ends(Go(s, o, 3), o, Finished(true))
    ensures Go(s, o, 3).clients == s.clients && Go(s, o, 3).names == s.names
    ensures Go(s, o, 3).claimed == s.claimed - Names(s, c)
  {
    var s1 := Advance(s, o);
    var s2 := Advance(s1, o);
    FreeingAlone(s2, o, c);
    Steps(s1, o, 1);
    Steps(s, o, 2);
  }

  lemma FreeingAlone(s: State, o: OpId, c: ClientId)
    requires o in s.jobs && s.jobs[o] == Job(Deregister(c), Freeing)
    requires s.claimedQueue == [] && s.clientsQueue == [] && s.readers == {}
    ensures Runs(s, o, 1) && Quiet(Go(s, o, 1)) && Ends(Go(s, o, 1), o, Finished(true))
    ensures Go(s, o, 1).clients == s.clients && Go(s, o, 1).names == s.names
    ensures Go(s, o, 1).claimed == s.claimed - Names(s, c)
  {
    Steps(s, o, 0);
  }

  lemma LeftBooks(s: State, s': State, i: nat)
    requires i < |s.clients| && s'.clients == SwapRemove(s.clients, i)
    requires s'.names == s.names && s'.claimed == s.claimed - Names(s, s.clients[i])
    ensures BooksOf(s') == Left(BooksOf(s), i)
  {
    assert BooksOf(s').names == SwapRemove(BooksOf(s).names, i);
  }

  lemma DeregisterAlone(s: State, o: OpId, i: nat)
    requires Quiet(s) && Distinct(s.clients) && i < |s.clients| && CanStart(s, o, Deregister(s.clients[i]))
    ensures var s0 := Start(s, o, Deregister(s.clients[i]));
            && Runs(s0, o, 5) && Quiet(Go(s0, o, 5)) && Ends(Go(s0, o, 5), o, Finished(true))
            && BooksOf(Go(s0, o, 5)) == Left(BooksOf(s), i)
  {
    IndexOfDistinct(s.clients, i);
    var s0 := Start(s, o, Deregister(s.clients[i]));
    var s1 := Advance(s0, o);
    var s2 := Advance(s1, o);
    FreeAlone(s2, o, s.clients[i]);
    Steps(s1, o, 3);
    Steps(s0, o, 4);
    LeftBooks(s, Go(s2, o, 3), i);
  }

  /** What lookup finds from position `i` on. */
  function FoundFrom(s: State, i: nat, h: Host): Option<ClientId>
    requires i <= |s.clients|
  {
    match FirstWith(BooksOf(s).names[i..], h)
    case Some(k) => Some(s.clients[i + k])
    case None => None
  }

  lemma {:induction false} ScanAlone(s: State, o: OpId, i: nat, h: Host) returns (n: nat)
    requires o in s.jobs && s.jobs[o] == Job(Lookup(h), Scanning(i)) && i <= |s.clients| && s.readers == {o}
    requires Quiet(s.(readers := {}))
    ensures Runs(s, o, n) && Quiet(Go(s, o, n)) && BooksOf(Go(s, o, n)) == BooksOf(s)
    ensures Ends(Go(s, o, n), o, Found(FoundFrom(s, i, h)))
    decreases |s.clients| - i
  {
    ScanStep(s, o, i, h);
    var s1 := Advance(s, o);
    if i < |s.clients| && h !in Names(s, s.clients[i]) {
      var k := ScanAlone(s1, o, i + 1, h);
      Steps(s, o, k);
      n := k + 1;
    } else {
      Steps(s, o, 0);
      n := 1;
    }
  }

  lemma ScanStep(s: State, o: OpId, i: nat, h: Host)
    requires o in s.jobs && s.jobs[o] == Job(Lookup(h), Scanning(i)) && i <= |s.clients| && s.readers == {o}
    requires Quiet(s.(readers := {}))
    ensures var s1 := Advance(s, o);
            && BooksOf(s1) == BooksOf(s) && s1.clients == s.clients
            && (if i < |s.clients| && h !in Names(s, s.clients[i])
                then s1.jobs == s.jobs[o := Job(Lookup(h), Scanning(i + 1))] && s1.readers == {o} && Quiet(s1.(readers := {}))
                     && FoundFrom(s1, i + 1, h) == FoundFrom(s, i, h)
                else Quiet(s1) && Ends(s1, o, Found(FoundFrom(s, i, h))))
  {
    assert i < |s.clients| ==> BooksOf(s).names[i..][1..] == BooksOf(s).names[i + 1..];
    assert BooksOf(Advance(s, o)).names == BooksOf(s).names;
  }

  lemma LookupAlone(s: State, o: OpId, h: Host) returns (n: nat)
    requires Quiet(s) && CanStart(s, o, Lookup(h))
    ensures var s0 := Start(s, o, Lookup(h));
            && Runs(s0, o, n) && Quiet(Go(s0, o, n)) && BooksOf(Go(s0, o, n)) == BooksOf(s)
            && Ends(Go(s0, o, n), o, Found(FoundFrom(s, 0, h)))
  {
    var s0 := Start(s, o, Lookup(h));
    var s1 := Advance(s0, o);
    var s2 := Advance(s1, o);
    assert BooksOf(s2) == BooksOf(s);
    var k := ScanAlone(s2, o, 0, h);
    Steps(s1, o, k);
    Steps(s0, o, k + 1);
    n := k + 2;
  }
}
