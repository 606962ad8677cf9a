/** What every step of a session keeps. */
module SessionInv {
  import opened Text
  import opened Addresses
  import opened PortTask
  import opened Session
  import opened Lanes

  // ---------- projections of the wires

  /** Number of PortConnect messages for `u` in a queue. */
  function Connects(q: seq<Msg>, u: Uuid): nat {
    if q == [] then 0 else (if q[0].Connect? && q[0].uuid == u then 1 else 0) + Connects(q[1..], u)
  }

  lemma {:induction false} ConnectsSnoc(q: seq<Msg>, m: Msg, u: Uuid)
    ensures Connects(q + [m], u) == Connects(q, u) + if m.Connect? && m.uuid == u then 1 else 0
  {
    if q == [] {
      assert q + [m] == [m] && [m][1..] == [];
    } else {
      assert (q + [m])[0] == q[0] && (q + [m])[1..] == q[1..] + [m];
      ConnectsSnoc(q[1..], m, u);
    }
  }

  predicate Concerns(m: Msg, u: Uuid) {
    (m.Connect? || m.Connected? || m.Port?) && m.uuid == u
  }

  /** Everything a wire ever carried about `u`, in order. */
  function Trace(log: seq<Msg>, u: Uuid): seq<Msg> {
    if log == [] then []
    else Trace(log[..|log| - 1], u) + if Concerns(log[|log| - 1], u) then [log[|log| - 1]] else []
  }

  lemma TraceSnoc(log: seq<Msg>, m: Msg, u: Uuid)
    ensures Trace(log + [m], u) == Trace(log, u) + if Concerns(m, u) then [m] else []
  {
    assert (log + [m])[..|log|] == log;
  }

  function Wrap(u: Uuid, ms: seq<PortMessage>): seq<Msg> {
    if ms == [] then [] else Wrap(u, ms[..|ms| - 1]) + [Port(u, ms[|ms| - 1])]
  }

  lemma WrapSnoc(u: Uuid, ms: seq<PortMessage>, m: PortMessage)
    ensures Wrap(u, ms + [m]) == Wrap(u, ms) + [Port(u, m)]
  {
    assert (ms + [m])[..|ms|] == ms;
  }

  // ---------- the accept loops and the connection requests

  /** The connection an accept loop is busy with, or left unanswered when it stopped. */
  function Names(p: AcceptPhase): Option<Uuid> {
    match p
    case Accepting => None
    case Asking(u) => Some(u)
    case Waiting(u) => Some(u)
    case Replied(u, _) => Some(u)
    case Stopped(left) => left
  }

  ghost predicate Desk(s: State) {
    && (forall u :: u in s.owner ==> s.owner[u] < |s.listeners|)
    && (forall l :: 0 <= l < |s.listeners| && Names(s.listeners[l].phase).Some? ==>
          var u := Names(s.listeners[l].phase).value;
          u in s.owner && s.owner[u] == l && u !in s.srv.tasks)
    && (forall u :: u in s.pending ==>
          u in s.owner && var p := s.listeners[s.owner[u]].phase; Names(p) == Some(u) && !p.Replied?)
    && (forall l :: 0 <= l < |s.listeners| && s.listeners[l].phase.Stopped? ==> s.down.broken || s.srv.released)
    && (s.srv.released ==> s.srv.loop.Dead?)
  }

  // ---------- the handshake of one connection

  predicate Asked(s: State, u: Uuid) {
    u in s.owner && s.owner[u] < |s.listeners| && s.listeners[s.owner[u]].phase == Asking(u)
  }

  predicate InHand(e: End, u: Uuid) {
    match e.loop
    case Got(Connect(v, _)) => v == u
    case Dialling(v, _) => v == u
    case _ => false
  }

  /** PortConnect exists at most once: still to be sent, on the wire, or in np's hand. */
  function Tokens(s: State, u: Uuid): nat {
    Connects(s.down.queue, u) + (if InHand(s.np, u) then 1 else 0) + (if Asked(s, u) then 1 else 0)
  }

  /** A positive reply to the PortConnect for `u` exists somewhere. */
  predicate Vouched(s: State, u: Uuid) {
    || Connected(u, true) in s.up.queue
    || s.srv.loop == Got(Connected(u, true))
    || s.np.loop == Answering(Connected(u, true))
    || (u in s.owner && s.owner[u] < |s.listeners| && s.listeners[s.owner[u]].phase == Replied(u, true))
  }

  predicate Conn(s: State, u: Uuid) {
    && (u !in s.owner ==> Tokens(s, u) == 0 && u !in s.np.tasks && u !in s.srv.tasks)
    && Tokens(s, u) <= 1
    && (Tokens(s, u) == 1 ==> u !in s.np.tasks)
    && (u in s.srv.tasks ==> u in s.np.tasks)
    && (Vouched(s, u) ==> u in s.np.tasks)
  }

  /** The server-to-np trace: PortConnect, then what the server's task sent. */
  predicate Traced(s: State, u: Uuid) {
    var t := Trace(s.down.log, u);
    && (u !in s.owner || Asked(s, u) ==> t == [])
    && (Connects(s.down.queue, u) > 0 || InHand(s.np, u) || u in s.np.tasks ==> t != [])
    && (t != [] ==>
          u in s.owner && s.owner[u] < |s.listeners|
          && t == [Connect(u, ToAddress(Remote(s, s.owner[u])))] + Wrap(u, Sent(s.srv, u)))
  }

  // ---------- forwarded ports

  function Key(s: State, l: nat): string
    requires l < |s.listeners|
  {
    PortOrigin(FromAddress(ToAddress(Remote(s, l))))
  }

  /** The message names an existing listener by its address, one that could still announce
      itself when it was created. */
  predicate Truthful(s: State, m: Msg) {
    match m
    case Opened(remote, local, l) =>
      l < |s.listeners| && !s.listeners[l].mute && remote == ToAddress(Remote(s, l)) && local == s.listeners[l].local
    case Connect(u, remote) =>
      u in s.owner && var l := s.owner[u];
      l < |s.listeners| && !s.listeners[l].mute && remote == ToAddress(Remote(s, l))
    case _ => true
  }

  predicate AnswerOk(s: State, m: Msg) {
    m.Refused? || (m.Opened? && (Truthful(s, m) || s.down.broken))
  }

  /** `addr` is the local address of the PortOpen behind the listener that accepted `u`. */
  predicate Meant(s: State, u: Uuid, addr: Addr) {
    u in s.owner && s.owner[u] < |s.listeners| && addr == s.listeners[s.owner[u]].local
  }

  ghost predicate Dials(s: State) {
    && (forall i, j :: 0 <= i < j < |s.listeners| && s.listeners[i].port == s.listeners[j].port ==> s.listeners[j].mute)
    && (forall l :: 0 <= l < |s.listeners| && s.listeners[l].mute ==> s.down.broken)
    && (forall m :: m in s.down.queue ==> Truthful(s, m))
    && (s.np.loop.Got? ==> Truthful(s, s.np.loop.msg))
    && (s.srv.loop.Answering? ==> AnswerOk(s, s.srv.loop.answer))
    && (s.np.loop.Answering? ==> s.np.loop.answer.Connected?)
    && (s.np.loop.Dialling? ==> Meant(s, s.np.loop.uuid, s.np.loop.target))
    && (forall u :: u in s.np.tasks ==> u in s.dialled && Meant(s, u, s.dialled[u]))
  }

  /** np's entry for a listener it has heard of. */
  predicate Forwarded(s: State, l: nat) {
    && l < |s.listeners| && !s.listeners[l].mute
    && Key(s, l) in s.forwardings && s.forwardings[Key(s, l)] == s.listeners[l].local
  }

  predicate Behind(s: State, k: string, l: nat) {
    l in s.announced && l < |s.listeners| && k == Key(s, l)
  }

  ghost predicate Forwards(s: State) {
    && (forall l :: l in s.announced ==> Forwarded(s, l))
    && (forall k :: k in s.forwardings ==> exists l :: Behind(s, k, l))
  }

  // ---------- all of it

  ghost predicate Ends(s: State) {
    && TableOk(Server, s.srv) && TasksOk(s.srv) && CutOffOk(s.srv, s.down)
    && TableOk(Np, s.np) && TasksOk(s.np) && CutOffOk(s.np, s.up)
  }

  ghost predicate InLanes(s: State) {
    && (forall u :: Lane(s.srv, s.down, s.np, u))
    && (forall u :: Lane(s.np, s.up, s.srv, u))
  }

  ghost predicate Shakes(s: State) {
    && Desk(s)
    && (forall u :: Conn(s, u))
    && (forall u :: Traced(s, u))
  }

  ghost predicate Inv(s: State) {
    Ends(s) && InLanes(s) && Shakes(s) && Dials(s) && Forwards(s)
  }

  lemma InitInv(host: Option<string>)
    ensures Inv(Init(host))
  {
  }
}
