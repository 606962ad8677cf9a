/** What every step of the registry's operations keeps. */
module RegistryInv {
  import opened Text
  import opened RegistryOps

  predicate Fits(op: Op, st: Stage) {
    st.Begin? ||
    match op
    case Register(_) => st.WantClients? || st.Finished?
    case Claim(_, _) => st.WantClaimed? || st.Reserved? || st.Finished?
    case Release(_, _) => st.Dropped? || st.WantClaimed? || st.Finished?
    case Deregister(_) => st.WantClients? || st.Removed? || st.WantClaimed? || st.Freeing? || st.Finished?
    case Lookup(_) => st.WantClients? || st.Scanning? || st.Found?
  }

  /** A client has one job at a time: the one its connection task is on. */
  predicate Rightful(s: State, o: OpId)
    requires o in s.jobs
  {
    var Job(op, st) := s.jobs[o];
    && Fits(op, st)
    && match op
       case Register(c) => c in s.life && (!Over(st) ==> s.life[c] == Joining(o))
       case Claim(c, _) => c in s.life && (!Over(st) ==> s.life[c] == Busy(o))
       case Release(c, _) => c in s.life && (!Over(st) ==> s.life[c] == Busy(o))
       case Deregister(c) => c in s.life && s.life[c] == Leaving(o)
       case Lookup(_) => true
  }

  ghost predicate Jobs(s: State) {
    forall o :: o in s.jobs ==> Rightful(s, o)
  }

  ghost predicate Distinct<T>(q: seq<T>) {
    forall i, j :: 0 <= i < j < |q| ==> q[i] != q[j]
  }

  /** Deregister holds the client list from its removal on. */
  predicate HoldsList(j: Job) {
    j.op.Deregister? && (j.stage.Removed? || j.stage.WantClaimed? || j.stage.Freeing?)
  }

  ghost predicate Locks(s: State) {
    && Distinct(s.clientsQueue) && Distinct(s.claimedQueue)
    && (forall o :: o in s.clientsQueue <==> o in s.jobs && s.jobs[o].stage.WantClients?)
    && (forall o :: o in s.claimedQueue <==> o in s.jobs && s.jobs[o].stage.WantClaimed?)
    && (forall o :: o in s.readers <==> o in s.jobs && s.jobs[o].stage.Scanning?)
    && (forall o :: s.writer == Some(o) <==> o in s.jobs && HoldsList(s.jobs[o]))
    && (forall o :: s.claimedBy == Some(o) <==> o in s.jobs && s.jobs[o].stage.Freeing?)
    && (s.writer.Some? ==> s.readers == {})
  }

  /** The client has left the list for good. */
  predicate Departed(s: State, c: ClientId) {
    c in s.life && s.life[c].Leaving? && s.life[c].job in s.jobs
    && !s.jobs[s.life[c].job].stage.Begin? && !s.jobs[s.life[c].job].stage.WantClients?
  }

  ghost predicate Members(s: State) {
    && Distinct(s.clients) && s.names.Keys == s.life.Keys
    && (forall c :: c in s.life ==> (c in s.clients <==> !s.life[c].Joining? && !Departed(s, c)))
    && (forall c :: c in s.clients ==> c in s.life)
    && (forall c :: c in s.freed <==>
          c in s.life && s.life[c].Leaving? && s.life[c].job in s.jobs && Over(s.jobs[s.life[c].job].stage))
    && (forall c :: c in s.life && s.life[c].Joining? ==> Names(s, c) == {})
    && (forall c :: c in s.life && s.life[c].Leaving? ==> s.life[c].job in s.jobs && s.jobs[s.life[c].job].op == Deregister(c))
  }

  predicate Holds(s: State, x: Holder, h: Host) {
    match x
    case Owner(c) => c !in s.freed && h in Names(s, c)
    case Claimer(o) => o in s.jobs && s.jobs[o].op.Claim? && s.jobs[o].op.host == h && s.jobs[o].stage.Reserved?
    case Releaser(o) => o in s.jobs && s.jobs[o].op.Release? && s.jobs[o].op.host == h
                        && (s.jobs[o].stage.Dropped? || s.jobs[o].stage.WantClaimed?)
  }

  ghost predicate Owners(s: State) {
    && s.claimed == s.holder.Keys
    && (forall x, h :: Holds(s, x, h) <==> h in s.holder && s.holder[h] == x)
  }

  ghost predicate Inv(s: State) {
    Jobs(s) && Locks(s) && Members(s) && Owners(s)
  }

  lemma InitInv()
    ensures Inv(Init)
  {
  }

  // ---------- jobs

  lemma StartJobs(s: State, o: OpId, op: Op)
    requires Jobs(s) && CanStart(s, o, op)
    ensures Jobs(Start(s, o, op))
  {
    forall p | p in Start(s, o, op).jobs ensures Rightful(Start(s, o, op), p) {
      if p != o { assert Rightful(s, p); }
    }
  }

  /** A job moves on; when it is over its client may be ready again. */
  lemma JobMoves(s: State, s': State, o: OpId, stage: Stage)
    requires Jobs(s) && o in s.jobs && s'.jobs == s.jobs[o := s.jobs[o].(stage := stage)]
    requires Fits(s.jobs[o].op, stage) && !Over(s.jobs[o].stage)
    requires s'.life == s.life ||
             (Over(stage) && (s.jobs[o].op.Register? || s.jobs[o].op.Claim? || s.jobs[o].op.Release?)
              && s'.life == s.life[s.jobs[o].op.client := Ready])
    ensures Jobs(s')
  {
    assert Rightful(s, o);
    forall p | p in s'.jobs ensures Rightful(s', p) {
      assert Rightful(s, p);
    }
  }

  /** How a step changes its own job and its client's life. */
  predicate MovesJob(s: State, s': State, o: OpId) {
    && o in s.jobs && o in s'.jobs && Fits(s.jobs[o].op, s'.jobs[o].stage)
    && s'.jobs == s.jobs[o := s.jobs[o].(stage := s'.jobs[o].stage)]
    && (s'.life == s.life ||
        (Over(s'.jobs[o].stage) && (s.jobs[o].op.Register? || s.jobs[o].op.Claim? || s.jobs[o].op.Release?)
         && s'.life == s.life[s.jobs[o].op.client := Ready]))
  }

  lemma AdvanceJobs(s: State, o: OpId)
    requires Jobs(s) && CanAdvance(s, o)
    ensures Jobs(Advance(s, o))
  {
    assert Rightful(s, o);
    AdvanceMoves(s, o);
    JobMoves(s, Advance(s, o), o, Advance(s, o).jobs[o].stage);
  }

  // ---------- locks

  lemma StartLocks(s: State, o: OpId, op: Op)
    requires Locks(s) && CanStart(s, o, op)
    ensures Locks(Start(s, o, op))
  {
  }

  lemma Enqueued(q: seq<OpId>, o: OpId)
    requires Distinct(q) && o !in q
    ensures Distinct(q + [o]) && forall p :: p in q + [o] <==> p in q || p == o
  {
  }

  lemma Dequeued(q: seq<OpId>)
    requires Distinct(q) && q != []
    ensures Distinct(Tail(q)) && forall p :: p in Tail(q) <==> p in q && p != q[0]
  {
    assert q == [q[0]] + Tail(q);
  }

  predicate QueueMoves(q: seq<OpId>, q': seq<OpId>, o: OpId, was: bool, now: bool) {
    if was == now then q' == q
    else if now then q' == q + [o]
    else q != [] && q[0] == o && q' == Tail(q)
  }

  lemma QueueKeeps(q: seq<OpId>, q': seq<OpId>, o: OpId, was: bool, now: bool)
    requires QueueMoves(q, q', o, was, now) && Distinct(q) && (o in q <==> was)
    ensures Distinct(q') && forall p :: p in q' <==> if p == o then now else p in q
  {
    if now && !was {
      Enqueued(q, o);
    } else if was && !now {
      Dequeued(q);
    }
  }

  /** A job goes from one relation to the locks to another. */
  predicate MovesLocks(s: State, s': State, o: OpId) {
    && o in s.jobs && o in s'.jobs && s'.jobs == s.jobs[o := s'.jobs[o]]
    && var j, j' := s.jobs[o], s'.jobs[o];
    && QueueMoves(s.clientsQueue, s'.clientsQueue, o, j.stage.WantClients?, j'.stage.WantClients?)
    && QueueMoves(s.claimedQueue, s'.claimedQueue, o, j.stage.WantClaimed?, j'.stage.WantClaimed?)
    && (s'.readers == if j'.stage.Scanning? == j.stage.Scanning? then s.readers
                      else if j'.stage.Scanning? then s.readers + {o} else s.readers - {o})
    && (s'.writer == if HoldsList(j') == HoldsList(j) then s.writer else if HoldsList(j') then Some(o) else None)
    && (s'.claimedBy == if j'.stage.Freeing? == j.stage.Freeing? then s.claimedBy
                        else if j'.stage.Freeing? then Some(o) else None)
    && (HoldsList(j') && !HoldsList(j) ==> s.writer == None && s.readers == {})
    && (j'.stage.Scanning? && !j.stage.Scanning? ==> s.writer == None)
    && (j'.stage.Freeing? && !j.stage.Freeing? ==> s.claimedBy == None)
  }

  lemma LocksMove(s: State, s': State, o: OpId)
    requires Locks(s) && MovesLocks(s, s', o)
    ensures Locks(s')
  {
    QueueKeeps(s.clientsQueue, s'.clientsQueue, o, s.jobs[o].stage.WantClients?, s'.jobs[o].stage.WantClients?);
    QueueKeeps(s.claimedQueue, s'.claimedQueue, o, s.jobs[o].stage.WantClaimed?, s'.jobs[o].stage.WantClaimed?);
  }

  lemma RegisterMoves(s: State, o: OpId, c: ClientId)
    requires CanAdvance(s, o) && s.jobs[o].op == Register(c) && Fits(s.jobs[o].op, s.jobs[o].stage)
    ensures MovesLocks(s, StepRegister(s, o, c), o) && MovesJob(s, StepRegister(s, o, c), o)
  {
  }

  lemma ClaimMoves(s: State, o: OpId, c: ClientId, h: Host)
    requires CanAdvance(s, o) && s.jobs[o].op == Claim(c, h) && Fits(s.jobs[o].op, s.jobs[o].stage)
    ensures MovesLocks(s, StepClaim(s, o, c, h), o) && MovesJob(s, StepClaim(s, o, c, h), o)
  {
  }

  lemma ReleaseMoves(s: State, o: OpId, c: ClientId, h: Host)
    requires CanAdvance(s, o) && s.jobs[o].op == Release(c, h) && Fits(s.jobs[o].op, s.jobs[o].stage)
    ensures MovesLocks(s, StepRelease(s, o, c, h), o) && MovesJob(s, StepRelease(s, o, c, h), o)
  {
  }

  lemma DeregisterMoves(s: State, o: OpId, c: ClientId)
    requires CanAdvance(s, o) && s.jobs[o].op == Deregister(c) && Fits(s.jobs[o].op, s.jobs[o].stage)
    ensures MovesLocks(s, StepDeregister(s, o, c), o) && MovesJob(s, StepDeregister(s, o, c), o)
  {
  }

  lemma LookupMoves(s: State, o: OpId, h: Host)
    requires CanAdvance(s, o) && s.jobs[o].op == Lookup(h) && Fits(s.jobs[o].op, s.jobs[o].stage)
    ensures MovesLocks(s, StepLookup(s, o, h), o) && MovesJob(s, StepLookup(s, o, h), o)
  {
  }

  lemma AdvanceMoves(s: State, o: OpId)
    requires CanAdvance(s, o) && Fits(s.jobs[o].op, s.jobs[o].stage)
    ensures MovesLocks(s, Advance(s, o), o) && MovesJob(s, Advance(s, o), o)
  {
    match s.jobs[o].op
    case Register(c) => RegisterMoves(s, o, c);
    case Claim(c, h) => ClaimMoves(s, o, c, h);
    case Release(c, h) => ReleaseMoves(s, o, c, h);
    case Deregister(c) => DeregisterMoves(s, o, c);
    case Lookup(h) => LookupMoves(s, o, h);
  }

  lemma AdvanceLocks(s: State, o: OpId)
    requires Locks(s) && CanAdvance(s, o) && Fits(s.jobs[o].op, s.jobs[o].stage)
    ensures Locks(Advance(s, o))
  {
    AdvanceMoves(s, o);
    LocksMove(s, Advance(s, o), o);
  }

  // ---------- membership

  /** A new job changes what one client is doing, or nothing. */
  lemma StartDeparted(s: State, o: OpId, op: Op, c: ClientId)
    requires Members(s) && CanStart(s, o, op) && c in s.life
    ensures Departed(Start(s, o, op), c) == Departed(s, c)
  {
    if s.life[c].Leaving? {
      assert s.jobs[s.life[c].job].op == Deregister(c);
    }
  }

  lemma StartRegister(s: State, o: OpId, c: ClientId)
    requires Members(s) && CanStart(s, o, Register(c))
    ensures Members(Start(s, o, Register(c)))
  {
    forall d | d in s.life ensures Departed(Start(s, o, Register(c)), d) == Departed(s, d) {
      StartDeparted(s, o, Register(c), d);
    }
  }

  lemma StartDeregister(s: State, o: OpId, c: ClientId)
    requires Members(s) && CanStart(s, o, Deregister(c))
    ensures Members(Start(s, o, Deregister(c)))
  {
    forall d | d in s.life ensures Departed(Start(s, o, Deregister(c)), d) == Departed(s, d) {
      StartDeparted(s, o, Deregister(c), d);
    }
  }

  lemma StartOther(s: State, o: OpId, op: Op)
    requires Members(s) && CanStart(s, o, op) && (op.Claim? || op.Release? || op.Lookup?)
    ensures Members(Start(s, o, op))
  {
    forall d | d in s.life ensures Departed(Start(s, o, op), d) == Departed(s, d) {
      StartDeparted(s, o, op, d);
    }
  }

  lemma StartMembers(s: State, o: OpId, op: Op)
    requires Members(s) && CanStart(s, o, op)
    ensures Members(Start(s, o, op))
  {
    match op
    case Register(c) => StartRegister(s, o, c);
    case Deregister(c) => StartDeregister(s, o, c);
    case _ => StartOther(s, o, op);
  }

  lemma SwapRemoved(cs: seq<ClientId>, i: nat)
    requires Distinct(cs) && i < |cs|
    ensures Distinct(SwapRemove(cs, i))
    ensures forall c :: c in SwapRemove(cs, i) <==> c in cs && c != cs[i]
  {
    var r, last := SwapRemove(cs, i), |cs| - 1;
    forall c | c in cs && c != cs[i] ensures c in r {
      var k :| 0 <= k < |cs| && cs[k] == c;
      assert r[if k == last then i else k] == c;
    }
  }

  /** The job's client stays in or out of the list. */
  lemma MembersStay(s: State, s': State, o: OpId)
    requires Members(s) && o in s.jobs && o in s'.jobs && s'.jobs == s.jobs[o := s'.jobs[o]] && s'.jobs[o].op == s.jobs[o].op
    requires s'.clients == s.clients && s'.freed == s.freed && s'.names.Keys == s.names.Keys
    requires s'.life == s.life ||
             exists c :: c in s.life && s.life[c].Busy? && s'.life == s.life[c := Ready]
    requires s.jobs[o].op.Deregister? ==>
      (s'.jobs[o].stage.Begin? || s'.jobs[o].stage.WantClients? <==> s.jobs[o].stage.Begin? || s.jobs[o].stage.WantClients?)
      && Over(s'.jobs[o].stage) == Over(s.jobs[o].stage)
    requires forall c :: c in s.life && s.life[c].Joining? ==> Names(s', c) == Names(s, c)
    ensures Members(s')
  {
    forall c | c in s.life && s.life[c].Leaving? ensures Departed(s', c) == Departed(s, c) {
      assert s.jobs[s.life[c].job].op == Deregister(c);
    }
  }

  lemma RegisterMembers(s: State, o: OpId, c: ClientId)
    requires Members(s) && CanAdvance(s, o) && s.jobs[o].op == Register(c) && Rightful(s, o)
    ensures Members(StepRegister(s, o, c))
  {
    var s' := StepRegister(s, o, c);
    if s.jobs[o].stage.Begin? {
      MembersStay(s, s', o);
    } else {
      assert c !in s.clients;
      forall d | d in s.life && s.life[d].Leaving? ensures Departed(s', d) == Departed(s, d) {
        assert s.jobs[s.life[d].job].op == Deregister(d);
      }
    }
  }

  lemma ClaimMembers(s: State, o: OpId, c: ClientId, h: Host)
    requires Members(s) && CanAdvance(s, o) && s.jobs[o].op == Claim(c, h) && Rightful(s, o)
    ensures Members(StepClaim(s, o, c, h))
  {
    assert s.life[c] == Busy(o) && c in s.names.Keys;
    MembersStay(s, StepClaim(s, o, c, h), o);
  }

  lemma ReleaseMembers(s: State, o: OpId, c: ClientId, h: Host)
    requires Members(s) && CanAdvance(s, o) && s.jobs[o].op == Release(c, h) && Rightful(s, o)
    ensures Members(StepRelease(s, o, c, h))
  {
    assert s.life[c] == Busy(o) && c in s.names.Keys;
    MembersStay(s, StepRelease(s, o, c, h), o);
  }

  lemma LeaverListed(s: State, o: OpId, c: ClientId)
    requires Members(s) && o in s.jobs && s.jobs[o].op == Deregister(c) && Rightful(s, o)
    ensures s.jobs[o].stage.Begin? || s.jobs[o].stage.WantClients? <==> c in s.clients
    ensures c in s.freed <==> Over(s.jobs[o].stage)
  {
  }

  lemma DeregisterMembers(s: State, o: OpId, c: ClientId)
    requires Members(s) && CanAdvance(s, o) && s.jobs[o].op == Deregister(c) && Rightful(s, o)
    ensures Members(StepDeregister(s, o, c))
  {
    var s' := StepDeregister(s, o, c);
    LeaverListed(s, o, c);
    if s.jobs[o].stage.WantClients? {
      SwapRemoved(s.clients, IndexOf(s.clients, c));
      OneDeparts(s, s', o, c);
    } else if s.jobs[o].stage.Freeing? {
      OneDeparts(s, s', o, c);
    } else {
      MembersStay(s, s', o);
    }
  }

  lemma OneDeparts(s: State, s': State, o: OpId, c: ClientId)
    requires Members(s) && o in s.jobs && s.jobs[o].op == Deregister(c) && c in s.life && s.life[c] == Leaving(o)
    requires o in s'.jobs && s'.jobs == s.jobs[o := s'.jobs[o]] && s'.jobs[o].op == s.jobs[o].op
    requires s'.life == s.life && s'.names == s.names && Distinct(s'.clients)
    requires !s'.jobs[o].stage.Begin? && !s'.jobs[o].stage.WantClients?
    requires forall d :: d in s'.clients <==> d in s.clients && d != c
    requires c !in s.freed && s'.freed == if Over(s'.jobs[o].stage) then s.freed + {c} else s.freed
    ensures Members(s')
  {
    forall d | d in s.life && d != c ensures Departed(s', d) == Departed(s, d) {
      if s.life[d].Leaving? {
        assert s.jobs[s.life[d].job].op == Deregister(d);
      }
    }
  }

  lemma AdvanceMembers(s: State, o: OpId)
    requires Members(s) && CanAdvance(s, o) && Rightful(s, o)
    ensures Members(Advance(s, o))
  {
    match s.jobs[o].op
    case Register(c) => RegisterMembers(s, o, c);
    case Claim(c, h) => ClaimMembers(s, o, c, h);
    case Release(c, h) => ReleaseMembers(s, o, c, h);
    case Deregister(c) => DeregisterMembers(s, o, c);
    case Lookup(h) => MembersStay(s, Advance(s, o), o);
  }

  // ---------- ownership

  /** Nothing about who holds what changes. */
  lemma OwnersStay(s: State, s': State)
    requires Owners(s) && s'.claimed == s.claimed && s'.holder == s.holder && s'.freed == s.freed
    requires forall c :: Names(s', c) == Names(s, c)
    requires forall x: Holder, h: Host :: !x.Owner? ==> Holds(s', x, h) == Holds(s, x, h)
    ensures Owners(s')
  {
    forall x, h ensures Holds(s', x, h) == Holds(s, x, h) {
      if x.Owner? { assert Names(s', x.client) == Names(s, x.client); }
    }
  }

  lemma StartOwners(s: State, o: OpId, op: Op)
    requires Owners(s) && CanStart(s, o, op) && s.names.Keys == s.life.Keys
    ensures Owners(Start(s, o, op))
  {
    var s' := Start(s, o, op);
    forall c ensures Names(s', c) == Names(s, c) {
      assert c in s.names.Keys <==> c in s.life.Keys;
    }
    OwnersStay(s, s');
  }

  /** The name `h` passes from its holder to another; `None` is nobody. */
  lemma OwnersPass(s: State, s': State, h: Host, from: Option<Holder>, to: Option<Holder>)
    requires Owners(s) && (if from.Some? then Holds(s, from.value, h) else h !in s.claimed)
    requires s'.holder == if to.Some? then s.holder[h := to.value] else s.holder - {h}
    requires s'.claimed == if to.Some? then s.claimed + {h} else s.claimed - {h}
    requires forall x, g :: g != h ==> Holds(s', x, g) == Holds(s, x, g)
    requires forall x :: Some(x) != from && Some(x) != to ==> Holds(s', x, h) == Holds(s, x, h)
    requires to.Some? ==> Holds(s', to.value, h)
    requires from.Some? && to != from ==> !Holds(s', from.value, h)
    ensures Owners(s')
  {
  }

  lemma ClaimOwners(s: State, o: OpId, c: ClientId, h: Host)
    requires Owners(s) && CanAdvance(s, o) && s.jobs[o].op == Claim(c, h) && Fits(s.jobs[o].op, s.jobs[o].stage)
    requires c !in s.freed
    ensures Owners(StepClaim(s, o, c, h))
  {
    var s' := StepClaim(s, o, c, h);
    match s.jobs[o].stage
    case Begin => OwnersStay(s, s');
    case WantClaimed =>
      if h in s.claimed { OwnersStay(s, s'); } else { OwnersPass(s, s', h, None, Some(Claimer(o))); }
    case Reserved =>
      assert Holds(s, Claimer(o), h);
      assert s.claimed + {h} == s.claimed;
      OwnersPass(s, s', h, Some(Claimer(o)), Some(Owner(c)));
    case _ =>
  }

  lemma ReleaseOwners(s: State, o: OpId, c: ClientId, h: Host)
    requires Owners(s) && CanAdvance(s, o) && s.jobs[o].op == Release(c, h) && Fits(s.jobs[o].op, s.jobs[o].stage)
    requires c !in s.freed
    ensures Owners(StepRelease(s, o, c, h))
  {
    var s' := StepRelease(s, o, c, h);
    match s.jobs[o].stage
    case Begin =>
      if h !in Names(s, c) { OwnersStay(s, s'); } else {
        assert Holds(s, Owner(c), h);
        OwnersPass(s, s', h, Some(Owner(c)), Some(Releaser(o)));
      }
    case Dropped => OwnersStay(s, s');
    case WantClaimed => OwnersPass(s, s', h, Some(Releaser(o)), None);
    case _ =>
  }

  lemma DeregisterOwners(s: State, o: OpId, c: ClientId)
    requires Owners(s) && CanAdvance(s, o) && s.jobs[o].op == Deregister(c) && Fits(s.jobs[o].op, s.jobs[o].stage)
    requires c !in s.freed
    ensures Owners(StepDeregister(s, o, c))
  {
    if s.jobs[o].stage.Freeing? {
      FreeingOwners(s, o, c);
    } else {
      OwnersIdle(s, StepDeregister(s, o, c), o, StepDeregister(s, o, c).jobs[o].stage);
    }
  }

  /** A job that is no claim or release moves on and changes no ownership. */
  lemma OwnersIdle(s: State, s': State, o: OpId, stage: Stage)
    requires Owners(s) && o in s.jobs && !s.jobs[o].op.Claim? && !s.jobs[o].op.Release?
    requires s'.jobs == s.jobs[o := s.jobs[o].(stage := stage)] && s'.names == s.names
    requires s'.claimed == s.claimed && s'.holder == s.holder && s'.freed == s.freed
    ensures Owners(s')
  {
    OwnersStay(s, s');
  }

  lemma FreeingOwners(s: State, o: OpId, c: ClientId)
    requires Owners(s) && o in s.jobs && s.jobs[o] == Job(Deregister(c), Freeing) && c !in s.freed
    ensures Owners(StepDeregister(s, o, c))
  {
    var s' := StepDeregister(s, o, c);
    forall x, h ensures Holds(s', x, h) <==> h in s'.holder && s'.holder[h] == x {
      assert Holds(s', x, h) <==> Holds(s, x, h) && x != Owner(c);
      assert h in Names(s, c) <==> Holds(s, Owner(c), h);
    }
  }

  lemma AdvanceOwners(s: State, o: OpId)
    requires Owners(s) && Members(s) && CanAdvance(s, o) && Rightful(s, o)
    ensures Owners(Advance(s, o))
  {
    match s.jobs[o].op
    case Register(_) => OwnersIdle(s, Advance(s, o), o, Advance(s, o).jobs[o].stage);
    case Claim(c, h) => ClaimOwners(s, o, c, h);
    case Release(c, h) => ReleaseOwners(s, o, c, h);
    case Deregister(c) => LeaverListed(s, o, c); DeregisterOwners(s, o, c);
    case Lookup(_) => OwnersIdle(s, Advance(s, o), o, Advance(s, o).jobs[o].stage);
  }

  // ---------- all steps, all runs

  lemma StepKeeps(s: State, a: Action)
    requires Inv(s) && CanDo(s, a)
    ensures Inv(Do(s, a))
  {
    match a
    case Begins(o, op) =>
      StartJobs(s, o, op);
      StartLocks(s, o, op);
      StartMembers(s, o, op);
      StartOwners(s, o, op);
    case Goes(o) =>
      assert Rightful(s, o);
      AdvanceJobs(s, o);
      AdvanceLocks(s, o);
      AdvanceMembers(s, o);
      AdvanceOwners(s, o);
  }

  lemma {:induction false} RunKeeps(b: seq<State>, i: nat)
    requires IsRun(b) && i < |b|
    ensures Inv(b[i])
  {
    if i == 0 {
      InitInv();
    } else {
      RunKeeps(b, i - 1);
      assert Next(b[i - 1], b[i - 1 + 1]);
      var a :| CanDo(b[i - 1], a) && Do(b[i - 1], a) == b[i];
      StepKeeps(b[i - 1], a);
    }
  }
}
