/** The hostname registry under concurrency: operations of `Registry` as sequences of steps,
    one step between two lock acquisitions. Both registry locks are fair: who waits is
    queued, and only the head of a queue gets the lock. A client's own hostname set is
    locked for single accesses only, so an access to it is part of a step. */
module RegistryOps {
  import opened Text

  type Host = string
  type ClientId = nat
  type OpId = nat

  datatype Op =
    | Register(client: ClientId)
    | Claim(client: ClientId, host: Host)
    | Release(client: ClientId, host: Host)
    | Deregister(client: ClientId)
    | Lookup(host: Host)

  datatype Stage =
    | Begin
    | WantClients            // queued for the lock of the client list
    | WantClaimed            // queued for the lock of the claimed names
    | Reserved               // claim: claimed, not yet among the client's names
    | Dropped                // release: no longer among the client's names, still claimed
    | Removed                // deregister: out of the list, holding its lock
    | Freeing                // deregister: holding both locks
    | Scanning(next: nat)    // lookup: holding the list for reading
    | Finished(ok: bool)
    | Found(who: Option<ClientId>)

  datatype Job = Job(op: Op, stage: Stage)

  /** What a client's connection task is doing; its requests are handled one at a time. */
  datatype Life = Joining(job: OpId) | Ready | Busy(job: OpId) | Leaving(job: OpId)

  /** Who a claimed name belongs to. */
  datatype Holder = Owner(client: ClientId) | Claimer(op: OpId) | Releaser(op: OpId)

  datatype State = State(
    claimed: set<Host>,
    clients: seq<ClientId>,
    names: map<ClientId, set<Host>>,       // each Client's hostnames
    life: map<ClientId, Life>,
    jobs: map<OpId, Job>,
    clientsQueue: seq<OpId>, readers: set<OpId>, writer: Option<OpId>,
    claimedQueue: seq<OpId>, claimedBy: Option<OpId>,
    freed: set<ClientId>,                  // history: clients whose deregister has finished
    holder: map<Host, Holder>)             // history

  const Init := State({}, [], map[], map[], map[], [], {}, None, [], None, {}, map[])

  predicate Over(st: Stage) {
    st.Finished? || st.Found?
  }

  function Names(s: State, c: ClientId): set<Host> {
    if c in s.names then s.names[c] else {}
  }

  // ---------- operations begin

  predicate CanStart(s: State, o: OpId, op: Op) {
    && o !in s.jobs
    && match op
       case Register(c) => c !in s.life
       case Claim(c, _) => c in s.life && s.life[c].Ready?
       case Release(c, _) => c in s.life && s.life[c].Ready?
       case Deregister(c) => c in s.life && s.life[c].Ready?
       case Lookup(_) => true
  }

  function Start(s: State, o: OpId, op: Op): State {
    var s' := s.(jobs := s.jobs[o := Job(op, Begin)]);
    match op
    case Register(c) => s'.(life := s.life[c := Joining(o)], names := s.names[c := {}])
    case Claim(c, _) => s'.(life := s.life[c := Busy(o)])
    case Release(c, _) => s'.(life := s.life[c := Busy(o)])
    case Deregister(c) => s'.(life := s.life[c := Leaving(o)])
    case Lookup(_) => s'
  }

  // ---------- operations advance

  predicate GetsClients(s: State, o: OpId, reading: bool) {
    s.clientsQueue != [] && s.clientsQueue[0] == o && s.writer == None && (reading || s.readers == {})
  }

  predicate GetsClaimed(s: State, o: OpId) {
    s.claimedQueue != [] && s.claimedQueue[0] == o && s.claimedBy == None
  }

  predicate CanAdvance(s: State, o: OpId) {
    o in s.jobs && match s.jobs[o].stage
                   case WantClients => GetsClients(s, o, s.jobs[o].op.Lookup?)
                   case WantClaimed => GetsClaimed(s, o)
                   case Finished(_) => false
                   case Found(_) => false
                   case _ => true
  }

  function To(s: State, o: OpId, stage: Stage): State
    requires o in s.jobs
  {
    s.(jobs := s.jobs[o := s.jobs[o].(stage := stage)])
  }

  function QueueForClients(s: State, o: OpId): State
    requires o in s.jobs
  {
    To(s, o, WantClients).(clientsQueue := s.clientsQueue + [o])
  }

  function QueueForClaimed(s: State, o: OpId): State
    requires o in s.jobs
  {
    To(s, o, WantClaimed).(claimedQueue := s.claimedQueue + [o])
  }

  /** The head of a queue has got its lock. */
  function Tail(q: seq<OpId>): seq<OpId> {
    if q == [] then [] else q[1..]
  }

  function StepRegister(s: State, o: OpId, c: ClientId): State
    requires CanAdvance(s, o)
  {
    if s.jobs[o].stage.Begin? then QueueForClients(s, o)
    else To(s, o, Finished(true))
      .(clients := s.clients + [c], clientsQueue := Tail(s.clientsQueue), life := s.life[c := Ready])
  }

  function StepClaim(s: State, o: OpId, c: ClientId, h: Host): State
    requires CanAdvance(s, o)
  {
    match s.jobs[o].stage
    case Begin => QueueForClaimed(s, o)
    case WantClaimed =>
      if h in s.claimed
      then To(s, o, Finished(false)).(claimedQueue := Tail(s.claimedQueue), life := s.life[c := Ready])
      else To(s, o, Reserved)
        .(claimedQueue := Tail(s.claimedQueue), claimed := s.claimed + {h}, holder := s.holder[h := Claimer(o)])
    case Reserved =>
      To(s, o, Finished(true))
        .(names := s.names[c := Names(s, c) + {h}], life := s.life[c := Ready], holder := s.holder[h := Owner(c)])
    case _ => s
  }

  function StepRelease(s: State, o: OpId, c: ClientId, h: Host): State
    requires CanAdvance(s, o)
  {
    match s.jobs[o].stage
    case Begin =>
      if h !in Names(s, c) then To(s, o, Finished(false)).(life := s.life[c := Ready])
      else To(s, o, Dropped).(names := s.names[c := Names(s, c) - {h}], holder := s.holder[h := Releaser(o)])
    case Dropped => QueueForClaimed(s, o)
    case WantClaimed =>
      To(s, o, Finished(true))
        .(claimedQueue := Tail(s.claimedQueue), claimed := s.claimed - {h}, life := s.life[c := Ready],
          holder := s.holder - {h})
    case _ => s
  }

  /** `Vec::swap_remove`. */
  function SwapRemove<T>(cs: seq<T>, i: nat): seq<T>
    requires i < |cs|
  {
    cs[i := cs[|cs| - 1]][..|cs| - 1]
  }

  function IndexOf(cs: seq<ClientId>, c: ClientId): (i: nat)
    ensures i <= |cs| && (i < |cs| ==> cs[i] == c) && (i == |cs| ==> c !in cs)
  {
    if cs == [] then 0 else if cs[0] == c then 0 else 1 + IndexOf(cs[1..], c)
  }

  function StepDeregister(s: State, o: OpId, c: ClientId): State
    requires CanAdvance(s, o)
  {
    match s.jobs[o].stage
    case Begin => QueueForClients(s, o)
    case WantClients =>
      var i := IndexOf(s.clients, c);
      if i == |s.clients| then To(s, o, Finished(false)).(clientsQueue := Tail(s.clientsQueue))
      else To(s, o, Removed)
        .(clientsQueue := Tail(s.clientsQueue), clients := SwapRemove(s.clients, i), writer := Some(o))
    case Removed => QueueForClaimed(s, o)
    case WantClaimed => To(s, o, Freeing).(claimedQueue := Tail(s.claimedQueue), claimedBy := Some(o))
    case Freeing =>
      To(s, o, Finished(true))
        .(claimed := s.claimed - Names(s, c), writer := None, claimedBy := None, freed := s.freed + {c},
          holder := s.holder - Names(s, c))
    case _ => s
  }

  function StepLookup(s: State, o: OpId, h: Host): State
    requires CanAdvance(s, o)
  {
    match s.jobs[o].stage
    case Begin => QueueForClients(s, o)
    case Scanning(i) =>
      if i >= |s.clients| then To(s, o, Found(None)).(readers := s.readers - {o})
      else if h in Names(s, s.clients[i]) then To(s, o, Found(Some(s.clients[i]))).(readers := s.readers - {o})
      else To(s, o, Scanning(i + 1))
    case WantClients =>
      To(s, o, Scanning(0)).(clientsQueue := Tail(s.clientsQueue), readers := s.readers + {o})
    case _ => s
  }

  function Advance(s: State, o: OpId): State
    requires CanAdvance(s, o)
  {
    match s.jobs[o].op
    case Register(c) => StepRegister(s, o, c)
    case Claim(c, h) => StepClaim(s, o, c, h)
    case Release(c, h) => StepRelease(s, o, c, h)
    case Deregister(c) => StepDeregister(s, o, c)
    case Lookup(h) => StepLookup(s, o, h)
  }

  datatype Action = Begins(id: OpId, op: Op) | Goes(id: OpId)

  predicate CanDo(s: State, a: Action) {
    match a
    case Begins(o, op) => CanStart(s, o, op)
    case Goes(o) => CanAdvance(s, o)
  }

  function Do(s: State, a: Action): State
    requires CanDo(s, a)
  {
    match a
    case Begins(o, op) => Start(s, o, op)
    case Goes(o) => Advance(s, o)
  }

  ghost predicate Next(s: State, s': State) {
    exists a :: CanDo(s, a) && Do(s, a) == s'
  }

  /** A run: the states that some interleaving of operations goes through. */
  ghost predicate IsRun(b: seq<State>) {
    && b != [] && b[0] == Init
    && forall i :: 0 <= i < |b| - 1 ==> Next(b[i], b[i + 1])
  }
}
