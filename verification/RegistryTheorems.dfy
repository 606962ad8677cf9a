/** What the registry guarantees under every interleaving of its operations. */
module RegistryTheorems {
  import opened Text
  import opened RegistryOps
  import opened RegistryInv

  // ---------- ownership

  /** At every instant the claimed names are the disjoint union of the names of clients not
      yet freed, the half-done claims and the half-done releases: a name is claimed exactly
      when it has a holder, and it never has two. */
  lemma ClaimedIsHeldOnce(b: seq<State>, i: nat, h: Host)
    requires IsRun(b) && i < |b|
    ensures h in b[i].claimed <==> exists x :: Holds(b[i], x, h)
    ensures forall x, y :: Holds(b[i], x, h) && Holds(b[i], y, h) ==> x == y
  {
    RunKeeps(b, i);
    var s := b[i];
    if h in s.claimed {
      assert Holds(s, s.holder[h], h);
    }
  }

  predicate Visible(s: State, c: ClientId, h: Host) {
    c in s.clients && h in Names(s, c)
  }

  /** Names of registered clients are claimed, and no two registered clients share one. */
  lemma VisibleOnce(s: State, c: ClientId, d: ClientId, h: Host)
    requires Inv(s) && Visible(s, c, h)
    ensures h in s.claimed && (Visible(s, d, h) ==> c == d)
  {
    assert c !in s.freed;
    assert Holds(s, Owner(c), h);
    if Visible(s, d, h) {
      assert d !in s.freed;
      assert Holds(s, Owner(d), h);
    }
  }

  lemma VisibleDisjoint(b: seq<State>, i: nat, c: ClientId, d: ClientId, h: Host)
    requires IsRun(b) && i < |b| && Visible(b[i], c, h)
    ensures h in b[i].claimed && (Visible(b[i], d, h) ==> c == d)
  {
    RunKeeps(b, i);
    VisibleOnce(b[i], c, d, h);
  }

  /** Between the two halves of a claim the name is taken, yet nobody is found for it. */
  lemma HalfClaimed(b: seq<State>, i: nat, o: OpId)
    requires IsRun(b) && i < |b| && o in b[i].jobs && b[i].jobs[o].op.Claim? && b[i].jobs[o].stage.Reserved?
    ensures b[i].jobs[o].op.host in b[i].claimed
    ensures forall c :: !Visible(b[i], c, b[i].jobs[o].op.host)
  {
    RunKeeps(b, i);
    var s, h := b[i], b[i].jobs[o].op.host;
    assert Holds(s, Claimer(o), h);
    forall c ensures !Visible(s, c, h) {
      assert c in s.clients ==> c !in s.freed;
      assert Holds(s, Owner(c), h) ==> Owner(c) == Claimer(o);
    }
  }

  /** When deregister finishes, all names of its client are free to claim. */
  lemma DeregisterFrees(s: State, o: OpId, c: ClientId)
    requires Inv(s) && CanAdvance(s, o) && s.jobs[o].op == Deregister(c)
    requires Over(Advance(s, o).jobs[o].stage)
    ensures var s' := Advance(s, o);
            s'.jobs[o].stage == Finished(true) && c !in s'.clients
            && forall h :: h in Names(s', c) ==> h !in s'.claimed && forall x :: !Holds(s', x, h)
  {
    assert Rightful(s, o);
    LeaverListed(s, o, c);
    StepKeeps(s, Goes(o));
    var s' := Advance(s, o);
    assert s.jobs[o].stage.Freeing?;
    forall h | h in Names(s', c) ensures h !in s'.claimed && forall x :: !Holds(s', x, h) {
      assert Holds(s, Owner(c), h);
    }
  }

  /** Deregister always finds its client in the list. */
  lemma DeregisterSucceeds(s: State, o: OpId, c: ClientId)
    requires Inv(s) && CanAdvance(s, o) && s.jobs[o].op == Deregister(c)
    ensures Advance(s, o).jobs[o].stage != Finished(false)
  {
    assert Rightful(s, o);
    LeaverListed(s, o, c);
  }

  lemma SameOp(s: State, a: Action, o: OpId)
    requires Inv(s) && CanDo(s, a) && o in s.jobs
    ensures o in Do(s, a).jobs && Do(s, a).jobs[o].op == s.jobs[o].op
    ensures a != Goes(o) ==> Do(s, a).jobs[o] == s.jobs[o]
  {
    if a.Goes? {
      assert Rightful(s, a.id);
      AdvanceMoves(s, a.id);
    }
  }

  // ---------- lookup is linearizable

  ghost predicate Nobody(s: State, h: Host) {
    forall c :: !Visible(s, c, h)
  }

  /** While a list is being read, no step passes a visible name from one client to another:
      after it the same client has the name, or nobody does. */
  lemma NoHandover(s: State, a: Action, c: ClientId, h: Host)
    requires Inv(s) && CanDo(s, a) && s.readers != {} && Visible(s, c, h)
    ensures Do(s, a).clients == s.clients
    ensures Visible(Do(s, a), c, h) || Nobody(Do(s, a), h)
  {
    var s' := Do(s, a);
    ListKept(s, a);
    assert c !in s.freed && Holds(s, Owner(c), h);
    forall d | d in s.clients && d != c ensures h !in Names(s', d) {
      assert d !in s.freed;
      NamesOfOthers(s, a, c, d, h);
    }
  }

  lemma ListKept(s: State, a: Action)
    requires Inv(s) && CanDo(s, a) && s.readers != {}
    ensures Do(s, a).clients == s.clients
  {
    if a.Goes? {
      assert Rightful(s, a.id);
    }
  }

  /** The name that a step of `o` gives to `d`: one that it has claimed. */
  function Gained(s: State, o: OpId, d: ClientId): set<Host>
    requires o in s.jobs
  {
    if s.jobs[o].op.Claim? && s.jobs[o].op.client == d && s.jobs[o].stage.Reserved? then {s.jobs[o].op.host} else {}
  }

  lemma AdvanceNames(s: State, o: OpId, d: ClientId)
    requires CanAdvance(s, o)
    ensures Names(Advance(s, o), d) <= Names(s, d) + Gained(s, o, d)
  {
    match s.jobs[o].op
    case Register(c) => assert StepRegister(s, o, c).names == s.names;
    case Claim(c, h) => ClaimNames(s, o, c, h, d);
    case Release(c, h) => ReleaseNames(s, o, c, h, d);
    case Deregister(c) => assert StepDeregister(s, o, c).names == s.names;
    case Lookup(h) => assert StepLookup(s, o, h).names == s.names;
  }

  lemma ClaimNames(s: State, o: OpId, c: ClientId, h: Host, d: ClientId)
    requires CanAdvance(s, o) && s.jobs[o].op == Claim(c, h)
    ensures Names(StepClaim(s, o, c, h), d) <= Names(s, d) + Gained(s, o, d)
  {
  }

  lemma ReleaseNames(s: State, o: OpId, c: ClientId, h: Host, d: ClientId)
    requires CanAdvance(s, o) && s.jobs[o].op == Release(c, h)
    ensures Names(StepRelease(s, o, c, h), d) <= Names(s, d)
  {
  }

  lemma StartNames(s: State, o: OpId, op: Op, d: ClientId)
    requires CanStart(s, o, op)
    ensures Names(Start(s, o, op), d) <= Names(s, d)
  {
  }

  /** A name that `c` holds does not come to another client in one step. */
  lemma NamesOfOthers(s: State, a: Action, c: ClientId, d: ClientId, h: Host)
    requires Inv(s) && CanDo(s, a) && Holds(s, Owner(c), h) && d != c && d in s.clients && d !in s.freed
    ensures h !in Names(Do(s, a), d)
  {
    assert !Holds(s, Owner(d), h);
    match a
    case Begins(o, op) => StartNames(s, o, op, d);
    case Goes(o) =>
      assert Rightful(s, o);
      AdvanceNames(s, o, d);
      assert Gained(s, o, d) != {} ==> Holds(s, Claimer(o), s.jobs[o].op.host);
  }

  /** `o` looks `h` up and is scanning from instant `i` to instant `j`. */
  ghost predicate Scans(b: seq<State>, i: nat, j: nat, o: OpId, h: Host) {
    && IsRun(b) && i <= j < |b|
    && forall k :: i <= k <= j ==> Scanner(b[k], o, h)
  }

  ghost predicate OwnerAhead(s: State, p: nat, h: Host) {
    exists q :: p <= q < |s.clients| && h in Names(s, s.clients[q])
  }

  lemma SomebodyAhead(s: State, h: Host)
    requires !Nobody(s, h)
    ensures OwnerAhead(s, 0, h)
  {
    var c :| Visible(s, c, h);
    var q :| 0 <= q < |s.clients| && s.clients[q] == c;
  }

  predicate Scanner(s: State, o: OpId, h: Host) {
    o in s.jobs && s.jobs[o].op == Lookup(h) && s.jobs[o].stage.Scanning?
  }

  lemma AheadNext(s: State, s': State, o: OpId, h: Host)
    requires Inv(s) && Next(s, s') && Scanner(s, o, h) && Scanner(s', o, h)
    requires OwnerAhead(s, s.jobs[o].stage.next, h)
    ensures Nobody(s', h) || OwnerAhead(s', s'.jobs[o].stage.next, h)
  {
    var a :| CanDo(s, a) && Do(s, a) == s';
    OwnerStaysAhead(s, a, o, h);
  }

  lemma ScanStep(b: seq<State>, i: nat, j: nat, o: OpId, h: Host)
    requires Scans(b, i, j, o, h) && i < j && OwnerAhead(b[j - 1], b[j - 1].jobs[o].stage.next, h)
    ensures Nobody(b[j], h) || OwnerAhead(b[j], b[j].jobs[o].stage.next, h)
  {
    RunKeeps(b, j - 1);
    assert Next(b[j - 1], b[j - 1 + 1]);
    AheadNext(b[j - 1], b[j], o, h);
  }

  /** Nobody had the name at some instant from `i` to `j`. */
  ghost predicate Gap(b: seq<State>, i: nat, j: nat, h: Host) {
    exists k :: i <= k <= j < |b| && Nobody(b[k], h)
  }

  lemma GapGrows(b: seq<State>, i: nat, j: nat, h: Host)
    requires j + 1 < |b| && Gap(b, i, j, h)
    ensures Gap(b, i, j + 1, h)
  {
    var k :| i <= k <= j < |b| && Nobody(b[k], h);
    assert i <= k <= j + 1 < |b| && Nobody(b[k], h);
  }

  lemma GapHere(b: seq<State>, i: nat, j: nat, h: Host)
    requires i <= j < |b| && Nobody(b[j], h)
    ensures Gap(b, i, j, h)
  {
  }

  /** Either nobody had the name at some instant of the scan, or its owner is not behind. */
  lemma {:induction false} ScanInvariant(b: seq<State>, i: nat, j: nat, o: OpId, h: Host)
    requires Scans(b, i, j, o, h) && b[i].jobs[o].stage == Scanning(0)
    ensures Gap(b, i, j, h) || OwnerAhead(b[j], b[j].jobs[o].stage.next, h)
    decreases j
  {
    if i == j {
      ScanBegins(b, i, o, h);
    } else {
      ScanInvariant(b, i, j - 1, o, h);
      ScanGoesOn(b, i, j, o, h);
    }
  }

  lemma ScanBegins(b: seq<State>, i: nat, o: OpId, h: Host)
    requires i < |b| && Scanner(b[i], o, h) && b[i].jobs[o].stage == Scanning(0)
    ensures Gap(b, i, i, h) || OwnerAhead(b[i], b[i].jobs[o].stage.next, h)
  {
    if Nobody(b[i], h) {
      GapHere(b, i, i, h);
    } else {
      SomebodyAhead(b[i], h);
    }
  }

  lemma ScanGoesOn(b: seq<State>, i: nat, j: nat, o: OpId, h: Host)
    requires Scans(b, i, j, o, h) && i < j
    requires Gap(b, i, j - 1, h) || OwnerAhead(b[j - 1], b[j - 1].jobs[o].stage.next, h)
    ensures Gap(b, i, j, h) || OwnerAhead(b[j], b[j].jobs[o].stage.next, h)
  {
    if Gap(b, i, j - 1, h) {
      GapGrows(b, i, j - 1, h);
    } else {
      ScanStep(b, i, j, o, h);
      if Nobody(b[j], h) {
        GapHere(b, i, j, h);
      }
    }
  }

  lemma OwnerStaysAhead(s: State, a: Action, o: OpId, h: Host)
    requires Inv(s) && CanDo(s, a) && o in s.readers && s.jobs[o].op == Lookup(h)
    requires OwnerAhead(s, s.jobs[o].stage.next, h)
    requires o in Do(s, a).jobs && Do(s, a).jobs[o].stage.Scanning?
    ensures Nobody(Do(s, a), h) || OwnerAhead(Do(s, a), Do(s, a).jobs[o].stage.next, h)
  {
    var s', p := Do(s, a), s.jobs[o].stage.next;
    var q :| p <= q < |s.clients| && h in Names(s, s.clients[q]);
    NoHandover(s, a, s.clients[q], h);
    SameOp(s, a, o);
    if !Nobody(s', h) {
      assert h in Names(s', s'.clients[q]);
      if a == Goes(o) {
        assert s'.jobs[o].stage == Scanning(p + 1) && q != p;
      }
    }
  }

  /** A lookup that finds nobody: at an instant of its scan no registered client had the
      name. */
  lemma LookupNobody(b: seq<State>, i: nat, j: nat, o: OpId, h: Host)
    requires Scans(b, i, j, o, h) && b[i].jobs[o].stage == Scanning(0)
    requires CanAdvance(b[j], o) && Advance(b[j], o).jobs[o].stage == Found(None)
    ensures Gap(b, i, j, h)
  {
    ScanInvariant(b, i, j, o, h);
  }

  /** A lookup that finds a client: at the instant it answers, that client is registered,
      has the name, and is the only one that has. */
  lemma LookupSomebody(b: seq<State>, i: nat, j: nat, o: OpId, h: Host, c: ClientId)
    requires Scans(b, i, j, o, h)
    requires CanAdvance(b[j], o) && Advance(b[j], o).jobs[o].stage == Found(Some(c))
    ensures Visible(b[j], c, h) && forall d :: Visible(b[j], d, h) ==> d == c
  {
    RunKeeps(b, j);
    forall d | Visible(b[j], d, h) ensures d == c {
      VisibleOnce(b[j], c, d, h);
    }
  }

  // ---------- no deadlock, and every operation finishes

  /** While an operation is unfinished, some operation can take a step. */
  lemma NeverStuck(b: seq<State>, i: nat, o: OpId)
    requires IsRun(b) && i < |b| && o in b[i].jobs && !Over(b[i].jobs[o].stage)
    ensures exists p :: CanAdvance(b[i], p)
  {
    RunKeeps(b, i);
    SomeoneGoes(b[i], o);
  }

  lemma SomeoneGoes(s: State, o: OpId)
    requires Jobs(s) && Locks(s) && o in s.jobs && !Over(s.jobs[o].stage)
    ensures exists p :: CanAdvance(s, p)
  {
    if s.claimedBy.Some? {
      assert CanAdvance(s, s.claimedBy.value);
    } else if s.claimedQueue != [] {
      var p := s.claimedQueue[0];
      assert p in s.claimedQueue;
      assert CanAdvance(s, p);
    } else if s.writer.Some? {
      var p := s.writer.value;
      assert p !in s.claimedQueue;
      assert CanAdvance(s, p);
    } else if s.readers != {} {
      var p :| p in s.readers;
      assert CanAdvance(s, p);
    } else if s.clientsQueue != [] {
      var p := s.clientsQueue[0];
      assert p in s.clientsQueue;
      assert CanAdvance(s, p);
    } else {
      assert o !in s.claimedQueue && o !in s.clientsQueue;
      assert CanAdvance(s, o);
    }
  }

  /** Lookups share the client list: one that is first in the queue needs only that nobody
      changes the list, however many others read it. */
  lemma LookupsShare(s: State, o: OpId, h: Host)
    requires o in s.jobs && s.jobs[o] == Job(Lookup(h), WantClients)
    requires s.clientsQueue != [] && s.clientsQueue[0] == o
    ensures CanAdvance(s, o) <==> s.writer == None
    ensures s.writer == None ==> Advance(s, o).readers == s.readers + {o} && Advance(s, o).clients == s.clients
  {
  }

  /** Steps a job still has to take, if the list never has more than `n` clients. */
  function Rank(j: Job, n: nat): nat {
    match j.stage
    case Finished(_) => 0
    case Found(_) => 0
    case Begin => if j.op.Lookup? then n + 3 else 5
    case WantClients => if j.op.Lookup? then n + 2 else 4
    case Scanning(i) => if i <= n then n + 1 - i else 1
    case Removed => 3
    case Dropped => 3
    case WantClaimed => 2
    case Reserved => 1
    case Freeing => 1
  }

  ghost function Remaining(jobs: map<OpId, Job>, n: nat): nat
    decreases |jobs|
  {
    if jobs == map[] then 0
    else
      var o :| o in jobs;
      assert |jobs - {o}| < |jobs| by { Smaller(jobs, o); }
      Rank(jobs[o], n) + Remaining(jobs - {o}, n)
  }

  lemma Smaller(jobs: map<OpId, Job>, o: OpId)
    requires o in jobs
    ensures |jobs - {o}| < |jobs|
  {
    assert (jobs - {o}).Keys == jobs.Keys - {o};
    assert |jobs.Keys| == |jobs| && |(jobs - {o}).Keys| == |jobs - {o}|;
  }

  /** The sum does not depend on the order in which jobs are picked. */
  lemma {:induction false} TakeOne(jobs: map<OpId, Job>, n: nat, o: OpId)
    requires o in jobs
    ensures Remaining(jobs, n) == Rank(jobs[o], n) + Remaining(jobs - {o}, n)
    decreases |jobs|
  {
    var p :| p in jobs && Remaining(jobs, n) == Rank(jobs[p], n) + Remaining(jobs - {p}, n);
    if p != o {
      Smaller(jobs, p);
      Smaller(jobs, o);
      TakeOne(jobs - {p}, n, o);
      TakeOne(jobs - {o}, n, p);
      assert jobs - {p} - {o} == jobs - {o} - {p};
    }
  }

  lemma Fewer(s: State, s': State, o: OpId, n: nat)
    requires o in s.jobs && o in s'.jobs && s'.jobs == s.jobs[o := s'.jobs[o]]
    requires Rank(s'.jobs[o], n) < Rank(s.jobs[o], n)
    ensures Remaining(s'.jobs, n) < Remaining(s.jobs, n)
  {
    TakeOne(s.jobs, n, o);
    TakeOne(s'.jobs, n, o);
    assert s'.jobs - {o} == s.jobs - {o};
  }

  lemma {:induction false} ListBound(cs: seq<ClientId>, all: set<ClientId>)
    requires Distinct(cs) && forall c :: c in cs ==> c in all
    ensures |cs| <= |all|
  {
    if cs != [] {
      var init, last := cs[..|cs| - 1], cs[|cs| - 1];
      assert last in cs && forall c :: c in init ==> c in cs && c != last;
      ListBound(init, all - {last});
    }
  }

  /** Every step of an operation brings the operations in progress nearer their end. */
  lemma StepsRunOut(s: State, o: OpId)
    requires Inv(s) && CanAdvance(s, o)
    ensures Advance(s, o).life.Keys == s.life.Keys
    ensures Remaining(Advance(s, o).jobs, |s.life|) < Remaining(s.jobs, |s.life|)
  {
    assert Rightful(s, o);
    AdvanceMoves(s, o);
    ListBound(s.clients, s.life.Keys);
    assert |s.life.Keys| == |s.life|;
    RankFalls(s, o, |s.life|);
    Fewer(s, Advance(s, o), o, |s.life|);
  }

  lemma RankFalls(s: State, o: OpId, n: nat)
    requires CanAdvance(s, o) && Fits(s.jobs[o].op, s.jobs[o].stage) && |s.clients| <= n
    requires o in Advance(s, o).jobs
    ensures Rank(Advance(s, o).jobs[o], n) < Rank(s.jobs[o], n)
  {
    match s.jobs[o].op
    case Register(c) => RegisterRank(s, o, c, n);
    case Claim(c, h) => ClaimRank(s, o, c, h, n);
    case Release(c, h) => ReleaseRank(s, o, c, h, n);
    case Deregister(c) => DeregisterRank(s, o, c, n);
    case Lookup(h) => LookupRank(s, o, h, n);
  }

  lemma RegisterRank(s: State, o: OpId, c: ClientId, n: nat)
    requires CanAdvance(s, o) && Fits(s.jobs[o].op, s.jobs[o].stage) && s.jobs[o].op == Register(c)
    ensures Rank(StepRegister(s, o, c).jobs[o], n) < Rank(s.jobs[o], n)
  {
  }

  lemma ClaimRank(s: State, o: OpId, c: ClientId, h: Host, n: nat)
    requires CanAdvance(s, o) && Fits(s.jobs[o].op, s.jobs[o].stage) && s.jobs[o].op == Claim(c, h)
    ensures Rank(StepClaim(s, o, c, h).jobs[o], n) < Rank(s.jobs[o], n)
  {
  }

  lemma ReleaseRank(s: State, o: OpId, c: ClientId, h: Host, n: nat)
    requires CanAdvance(s, o) && Fits(s.jobs[o].op, s.jobs[o].stage) && s.jobs[o].op == Release(c, h)
    ensures Rank(StepRelease(s, o, c, h).jobs[o], n) < Rank(s.jobs[o], n)
  {
  }

  lemma DeregisterRank(s: State, o: OpId, c: ClientId, n: nat)
    requires CanAdvance(s, o) && Fits(s.jobs[o].op, s.jobs[o].stage) && s.jobs[o].op == Deregister(c)
    ensures Rank(StepDeregister(s, o, c).jobs[o], n) < Rank(s.jobs[o], n)
  {
    var s' := StepDeregister(s, o, c);
    match s.jobs[o].stage
    case Begin => assert s'.jobs[o] == Job(Deregister(c), WantClients);
    case WantClients =>
      assert s'.jobs[o] == Job(Deregister(c), if IndexOf(s.clients, c) == |s.clients| then Finished(false) else Removed);
    case Removed => assert s'.jobs[o] == Job(Deregister(c), WantClaimed);
    case WantClaimed => assert s'.jobs[o] == Job(Deregister(c), Freeing);
    case Freeing => assert s'.jobs[o] == Job(Deregister(c), Finished(true));
    case _ =>
  }

  lemma LookupRank(s: State, o: OpId, h: Host, n: nat)
    requires CanAdvance(s, o) && Fits(s.jobs[o].op, s.jobs[o].stage) && s.jobs[o].op == Lookup(h) && |s.clients| <= n
    ensures Rank(StepLookup(s, o, h).jobs[o], n) < Rank(s.jobs[o], n)
  {
    var s' := StepLookup(s, o, h);
    match s.jobs[o].stage
    case Begin => assert s'.jobs[o] == Job(Lookup(h), WantClients);
    case WantClients => assert s'.jobs[o] == Job(Lookup(h), Scanning(0));
    case Scanning(i) => ScanRank(s, o, h, i, n);
    case _ =>
  }

  lemma ScanRank(s: State, o: OpId, h: Host, i: nat, n: nat)
    requires o in s.jobs && s.jobs[o] == Job(Lookup(h), Scanning(i)) && |s.clients| <= n
    ensures Rank(StepLookup(s, o, h).jobs[o], n) < Rank(s.jobs[o], n)
  {
    var stage := StepLookup(s, o, h).jobs[o].stage;
    assert stage.Found? || (i < |s.clients| && stage == Scanning(i + 1));
  }

  ghost predicate OneGoes(s: State, s': State) {
    exists o :: CanAdvance(s, o) && Advance(s, o) == s'
  }

  /** Once no operations begin any more, those in progress take no more steps than
      `Remaining` says. */
  lemma {:induction false} RunsOut(b: seq<State>, i: nat, j: nat)
    requires IsRun(b) && i <= j < |b|
    requires forall k :: i <= k < j ==> OneGoes(b[k], b[k + 1])
    ensures b[j].life.Keys == b[i].life.Keys
    ensures Remaining(b[j].jobs, |b[i].life|) + (j - i) <= Remaining(b[i].jobs, |b[i].life|)
    decreases j
  {
    if i < j {
      RunsOut(b, i, j - 1);
      RunKeeps(b, j - 1);
      assert OneGoes(b[j - 1], b[j - 1 + 1]);
      var o :| CanAdvance(b[j - 1], o) && Advance(b[j - 1], o) == b[j];
      StepsRunOut(b[j - 1], o);
      assert |b[j - 1].life.Keys| == |b[j - 1].life| && |b[i].life.Keys| == |b[i].life|;
    }
  }
}
