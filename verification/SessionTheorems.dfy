/** What a session guarantees, in every state any schedule reaches. */
module SessionTheorems {
  import opened Text
  import opened Addresses
  import opened PortTask
  import opened Session
  import opened Lanes
  import opened SessionInv
  import opened SessionHandshake

  function ReadBy(e: End, u: Uuid): seq<Byte> {
    if u in e.tasks then e.tasks[u].read else []
  }

  function WrittenBy(e: End, u: Uuid): seq<Byte> {
    if u in e.tasks then e.tasks[u].written else []
  }

  predicate Forwarding(e: End, u: Uuid) {
    u in e.tasks && Running(e.tasks[u])
  }

  // ---------- streams

  lemma LanePrefix(from: End, w: Wire, to: End, u: Uuid)
    requires TasksOk(from) && TasksOk(to) && Lane(from, w, to, u)
    ensures WrittenBy(to, u) <= ReadBy(from, u)
  {
    assert Taken(to, u) <= Sent(from, u);
    BytesPrefix(Taken(to, u), Sent(from, u));
    if u in to.tasks {
      assert Good(to.tasks[u]);
    }
    if u in from.tasks {
      assert Good(from.tasks[u]);
    }
  }

  /** The bytes written to the far socket of a connection are a prefix of the bytes read
      from its near socket, in both directions and whatever fails. */
  lemma StreamsArePrefixes(s: State, u: Uuid)
    requires Reachable(s)
    ensures WrittenBy(s.np, u) <= ReadBy(s.srv, u)
    ensures WrittenBy(s.srv, u) <= ReadBy(s.np, u)
  {
    ReachableInv(s);
    assert Lane(s.srv, s.down, s.np, u) && Lane(s.np, s.up, s.srv, u);
    LanePrefix(s.srv, s.down, s.np, u);
    LanePrefix(s.np, s.up, s.srv, u);
  }

  /** Every byte read is accounted for, in order: written, being written, in the channel,
      in the receive loop's hand, on the websocket, being sent. */
  predicate Conserved(from: End, w: Wire, to: End, u: Uuid)
    requires u in from.tasks && u in to.tasks
  {
    from.tasks[u].read ==
      to.tasks[u].written + Unwritten(to.tasks[u]) + Bytes(Chan(to, u)) + Bytes(Hand(to, u))
      + Bytes(Ports(w.queue, u)) + Unsent(from.tasks[u])
  }

  lemma LaneConserved(from: End, w: Wire, to: End, u: Uuid)
    requires TasksOk(from) && TasksOk(to) && CutOffOk(from, w) && Lane(from, w, to, u)
    requires Forwarding(from, u) && Forwarding(to, u) && !to.loop.Dead? && !w.broken
    ensures Conserved(from, w, to, u)
  {
    assert Good(from.tasks[u]) && Good(to.tasks[u]);
    var got, chan, hand, wire := Taken(to, u), Chan(to, u), Hand(to, u), Ports(w.queue, u);
    BytesConcat(got + chan + hand, wire);
    BytesConcat(got + chan, hand);
    BytesConcat(got, chan);
  }

  /** While both tasks of a connection run, and neither the receive loop nor the wire of a
      direction has failed, each byte read is in exactly one place, in order. */
  lemma NothingInFlightIsLost(s: State, u: Uuid)
    requires Reachable(s) && Forwarding(s.srv, u) && Forwarding(s.np, u)
    ensures !s.np.loop.Dead? && !s.down.broken ==> Conserved(s.srv, s.down, s.np, u)
    ensures !s.srv.loop.Dead? && !s.up.broken ==> Conserved(s.np, s.up, s.srv, u)
  {
    ReachableInv(s);
    assert Lane(s.srv, s.down, s.np, u) && Lane(s.np, s.up, s.srv, u);
    if !s.np.loop.Dead? && !s.down.broken { LaneConserved(s.srv, s.down, s.np, u); }
    if !s.srv.loop.Dead? && !s.up.broken { LaneConserved(s.np, s.up, s.srv, u); }
  }

  /** The task for `u` was told to close by its peer. */
  predicate ClosedByPeer(e: End, u: Uuid) {
    u in e.tasks && !Running(e.tasks[u]) && e.tasks[u].phase.cause == GotClose
  }

  lemma LaneComplete(from: End, w: Wire, to: End, u: Uuid)
    requires TasksOk(from) && TasksOk(to) && Lane(from, w, to, u) && ClosedByPeer(to, u)
    ensures u in from.tasks && from.tasks[u].eof && !Running(from.tasks[u])
    ensures to.tasks[u].written == from.tasks[u].read
  {
    assert Good(to.tasks[u]);
    assert Taken(to, u) <= Sent(from, u);
    assert Good(from.tasks[u]);
    ClosedPrefixIsAll(Taken(to, u), Sent(from, u));
  }

  /** A task that was told to close has written all its peer read, and its peer saw the end. */
  lemma CompleteNow(s: State, u: Uuid)
    requires Reachable(s)
    ensures ClosedByPeer(s.np, u) ==>
      u in s.srv.tasks && s.srv.tasks[u].eof && !Running(s.srv.tasks[u]) && s.np.tasks[u].written == s.srv.tasks[u].read
    ensures ClosedByPeer(s.srv, u) ==>
      u in s.np.tasks && s.np.tasks[u].eof && !Running(s.np.tasks[u]) && s.srv.tasks[u].written == s.np.tasks[u].read
  {
    ReachableInv(s);
    assert Lane(s.srv, s.down, s.np, u) && Lane(s.np, s.up, s.srv, u);
    if ClosedByPeer(s.np, u) { LaneComplete(s.srv, s.down, s.np, u); }
    if ClosedByPeer(s.srv, u) { LaneComplete(s.np, s.up, s.srv, u); }
  }

  /** A task that has left its loop is over: no step changes what it read and wrote. */
  predicate Settled(e: End, e': End, u: Uuid) {
    u in e.tasks && !Running(e.tasks[u]) ==>
      u in e'.tasks && !Running(e'.tasks[u]) && e'.tasks[u].(phase := e.tasks[u].phase) == e.tasks[u]
      && e'.tasks[u].phase.cause == e.tasks[u].phase.cause
  }

  lemma TaskSettles(side: Side, e: End, out: Wire, v: Uuid, ev: Event, u: Uuid)
    requires TaskEnabled(side, e, out, v, ev)
    ensures Settled(e, TaskEnd(side, e, v, ev), u)
  {
    if u == v && !Running(e.tasks[u]) {
      assert ev.Unregister?;
    }
  }

  /** Only the tasks' own steps and the two starts touch the tasks. */
  lemma TasksStay(s: State, a: Action)
    requires CanDo(s, a) && !a.ServerTask? && !a.NpTask? && !a.Resume? && !a.Dial?
    ensures Do(s, a).srv.tasks == s.srv.tasks && Do(s, a).np.tasks == s.np.tasks
  {
    match a
    case ReceiveMsg(side) => ReceiveKeepsTasks(s, side);
    case DispatchMsg(side) => DispatchKeepsTasks(s, side);
    case PushMsg(_) | LoopFails(_) | Release(_) => LoopKeepsTasks(s, a);
    case HandleConnected => ConnectedView(s);
    case RequestPort(_, _) | HandleOpened | HandleConnect | Reply(_) => NpKeepsTasks(s, a);
    case _ => ListenerKeepsTasks(s, a);
  }

  lemma ReceiveKeepsTasks(s: State, side: Side)
    requires CanDo(s, ReceiveMsg(side))
    ensures Do(s, ReceiveMsg(side)).srv.tasks == s.srv.tasks && Do(s, ReceiveMsg(side)).np.tasks == s.np.tasks
  {
  }

  lemma DispatchKeepsTasks(s: State, side: Side)
    requires CanDo(s, DispatchMsg(side))
    ensures Do(s, DispatchMsg(side)).srv.tasks == s.srv.tasks && Do(s, DispatchMsg(side)).np.tasks == s.np.tasks
  {
  }

  lemma LoopKeepsTasks(s: State, a: Action)
    requires CanDo(s, a) && (a.PushMsg? || a.LoopFails? || a.Release?)
    ensures Do(s, a).srv.tasks == s.srv.tasks && Do(s, a).np.tasks == s.np.tasks
  {
  }

  lemma NpKeepsTasks(s: State, a: Action)
    requires CanDo(s, a) && (a.RequestPort? || a.HandleOpened? || a.HandleConnect? || a.Reply?)
    ensures Do(s, a).srv.tasks == s.srv.tasks && Do(s, a).np.tasks == s.np.tasks
  {
  }

  lemma ListenerKeepsTasks(s: State, a: Action)
    requires CanDo(s, a) && (a.Bind? || a.Announce? || a.Accept? || a.AskNp? || a.StopListener?)
    ensures Do(s, a).srv.tasks == s.srv.tasks && Do(s, a).np.tasks == s.np.tasks
  {
  }

  lemma ResumeSettles(s: State, l: nat, u: Uuid)
    requires Shakes(s) && TableOk(Server, s.srv) && CanDo(s, Resume(l))
    ensures Settled(s.srv, DoResume(s, l).srv, u) && Settled(s.np, DoResume(s, l).np, u)
  {
    RepliedOnce(s, l);
  }

  lemma DialSettles(s: State, ok: bool, u: Uuid)
    requires Shakes(s) && TableOk(Np, s.np) && CanDo(s, Dial(ok))
    ensures Settled(s.srv, DoDial(s, ok).srv, u) && Settled(s.np, DoDial(s, ok).np, u)
  {
    DiallingAlone(s);
  }

  lemma StepSettles(s: State, a: Action, u: Uuid)
    requires Inv(s) && CanDo(s, a)
    ensures Settled(s.srv, Do(s, a).srv, u) && Settled(s.np, Do(s, a).np, u)
  {
    match a
    case ServerTask(v, ev) => TaskSettles(Server, s.srv, s.down, v, ev, u);
    case NpTask(v, ev) => TaskSettles(Np, s.np, s.up, v, ev, u);
    case Resume(l) => ResumeSettles(s, l, u);
    case Dial(ok) => DialSettles(s, ok, u);
    case _ => TasksStay(s, a);
  }

  lemma {:induction false} RunSettles(s: State, acts: seq<Action>, u: Uuid)
    requires Inv(s) && Legal(s, acts)
    ensures Settled(s.srv, After(s, acts).srv, u) && Settled(s.np, After(s, acts).np, u)
    decreases |acts|
  {
    if acts != [] {
      StepKeeps(s, acts[0]);
      StepSettles(s, acts[0], u);
      RunSettles(Do(s, acts[0]), acts[1..], u);
    }
  }

  /** If np's task ended because the server told it to close, the server had read end of
      file, and everything it read, now or after any further steps, is exactly what was
      written to np's socket. */
  lemma CloseMeansDeliveredToNp(s: State, u: Uuid, acts: seq<Action>)
    requires Reachable(s) && ClosedByPeer(s.np, u) && Legal(s, acts)
    ensures u in s.srv.tasks && s.srv.tasks[u].eof
    ensures ReadBy(After(s, acts).srv, u) == WrittenBy(s.np, u) == WrittenBy(After(s, acts).np, u)
  {
    CompleteNow(s, u);
    ReachableInv(s);
    RunSettles(s, acts, u);
  }

  lemma CloseMeansDeliveredToServer(s: State, u: Uuid, acts: seq<Action>)
    requires Reachable(s) && ClosedByPeer(s.srv, u) && Legal(s, acts)
    ensures u in s.np.tasks && s.np.tasks[u].eof
    ensures ReadBy(After(s, acts).np, u) == WrittenBy(s.srv, u) == WrittenBy(After(s, acts).srv, u)
  {
    CompleteNow(s, u);
    ReachableInv(s);
    RunSettles(s, acts, u);
  }

  // ---------- order of messages

  /** All the server ever tells np about `u`: nothing, or one PortConnect followed by data
      and at most one PortClose. */
  lemma ServerTrace(s: State, u: Uuid)
    requires Reachable(s)
    ensures var t := Trace(s.down.log, u);
            t == [] || (t[0].Connect? && t[1..] == Wrap(u, Sent(s.srv, u)) && Stream(Sent(s.srv, u)))
  {
    ReachableInv(s);
    assert Traced(s, u);
    if u in s.srv.tasks {
      assert Good(s.srv.tasks[u]);
    }
  }

  /** When data or a close for `u` reaches np, np has its task, and its writer is
      registered unless the task is over. */
  lemma DataFindsItsWriter(s: State, u: Uuid)
    requires Reachable(s) && Hand(s.np, u) != []
    ensures u in s.np.tasks && (u in s.np.chans || s.np.tasks[u].phase.Ended?)
  {
    ReachableInv(s);
    assert Lane(s.srv, s.down, s.np, u) && Conn(s, u);
  }

  /** A blocked send always has a receiver: the error branch after a send is dead code. */
  lemma SendHasReceiver(s: State, side: Side)
    requires Reachable(s) && EndOf(s, side).loop.Blocked?
    ensures var e := EndOf(s, side);
            e.loop.uuid in e.chans && e.loop.uuid in e.tasks && !e.tasks[e.loop.uuid].phase.Ended?
  {
    ReachableInv(s);
  }

  /** Indeed every registered writer has one. */
  lemma WritersHaveReceivers(s: State, side: Side, u: Uuid)
    requires Reachable(s) && u in EndOf(s, side).chans
    ensures u in EndOf(s, side).tasks && !EndOf(s, side).tasks[u].phase.Ended?
  {
    ReachableInv(s);
  }

  ghost predicate OnlyConfirmed(s: State) {
    && (forall u :: u in s.srv.tasks ==> u in s.confirmed)
    && (forall l :: 0 <= l < |s.listeners| && s.listeners[l].phase.Replied? && s.listeners[l].phase.ok ==>
          s.listeners[l].phase.uuid in s.confirmed)
  }

  lemma ConfirmsFrame(s: State, s': State)
    requires OnlyConfirmed(s) && s'.srv.tasks.Keys <= s.srv.tasks.Keys
    requires s'.listeners == s.listeners && s'.confirmed == s.confirmed
    ensures OnlyConfirmed(s')
  {
  }

  lemma PhaseConfirms(s: State, a: Action)
    requires OnlyConfirmed(s) && CanDo(s, a) && (a.Bind? || a.Accept? || a.AskNp? || a.StopListener?)
    ensures OnlyConfirmed(Do(s, a))
  {
  }

  lemma ReplyConfirms(s: State)
    requires OnlyConfirmed(s) && s.srv.loop.Got? && s.srv.loop.msg.Connected?
    ensures OnlyConfirmed(DoConnected(s))
  {
    assert DoConnected(s).srv.tasks == s.srv.tasks;
  }

  lemma ResumeConfirms(s: State, l: nat)
    requires OnlyConfirmed(s) && l < |s.listeners| && s.listeners[l].phase.Replied?
    ensures OnlyConfirmed(DoResume(s, l))
  {
  }

  lemma StepConfirms(s: State, a: Action)
    requires OnlyConfirmed(s) && CanDo(s, a)
    ensures OnlyConfirmed(Do(s, a))
  {
    if a.Bind? || a.Accept? || a.AskNp? || a.StopListener? {
      PhaseConfirms(s, a);
    } else if a.HandleConnected? {
      ReplyConfirms(s);
    } else if a.Resume? {
      ResumeConfirms(s, a.listener);
    } else if a.ServerTask? {
      assert Do(s, a).srv.tasks.Keys == s.srv.tasks.Keys;
      ConfirmsFrame(s, Do(s, a));
    } else {
      ConfirmsFrame(s, Do(s, a));
    }
  }

  lemma {:induction false} RunConfirms(s: State, acts: seq<Action>)
    requires OnlyConfirmed(s) && Legal(s, acts)
    ensures OnlyConfirmed(After(s, acts))
    decreases |acts|
  {
    if acts != [] {
      StepConfirms(s, acts[0]);
      RunConfirms(Do(s, acts[0]), acts[1..]);
    }
  }

  /** Data for `u` goes to np only once the server has handled a positive PortConnected. */
  lemma DataOnlyWhenConfirmed(s: State, u: Uuid)
    requires Reachable(s) && Sent(s.srv, u) != []
    ensures u in s.confirmed
  {
    var host, acts :| Legal(Init(host), acts) && After(Init(host), acts) == s;
    RunConfirms(Init(host), acts);
  }

  // ---------- dialling

  /** np's task for `u` is connected to the local address of the PortOpen that created the
      listener which accepted `u`. */
  lemma DialledAsAsked(s: State, u: Uuid)
    requires Reachable(s) && u in s.np.tasks
    ensures u in s.dialled && u in s.owner && s.owner[u] < |s.listeners|
    ensures s.dialled[u] == s.listeners[s.owner[u]].local
  {
    ReachableInv(s);
    assert Meant(s, u, s.dialled[u]);
  }

  /** Handling a PortConnect, np dials exactly when it has handled the listener's PortOpened
      before, and then the address that PortOpen named. */
  lemma DialsIffAnnounced(s: State)
    requires Reachable(s) && CanDo(s, HandleConnect)
    ensures var u := s.np.loop.msg.uuid;
            && u in s.owner && s.owner[u] < |s.listeners|
            && DoConnect(s).np.loop == if s.owner[u] in s.announced
                                       then Dialling(u, s.listeners[s.owner[u]].local)
                                       else Answering(Connected(u, false))
  {
    ReachableInv(s);
    var Connect(u, remote) := s.np.loop.msg;
    assert Truthful(s, Connect(u, remote));
    var l, key := s.owner[u], PortOrigin(FromAddress(remote));
    assert key == Key(s, l);
    if l in s.announced {
      assert Forwarded(s, l);
    } else if key in s.forwardings {
      var i :| Behind(s, key, i);
      assert Forwarded(s, i);
      KeyTellsListener(s, i, l);
    }
  }

  // ---------- bounds

  lemma {:induction false} InjectiveBound(us: set<Uuid>, f: map<Uuid, nat>, n: nat)
    requires forall u :: u in us ==> u in f && f[u] < n
    requires forall u, v :: u in us && v in us && f[u] == f[v] ==> u == v
    ensures |us| <= n
    decreases n
  {
    if us != {} {
      var w :| w in us;
      assert f[w] < n;
      if u :| u in us && f[u] == n - 1 {
        InjectiveBound(us - {u}, f, n - 1);
        assert |us| == |us - {u}| + 1;
      } else {
        InjectiveBound(us, f, n - 1);
      }
    }
  }

  /** Connection requests: never two for the same listener, so no more than there are
      listeners. */
  lemma HandshakeBound(s: State)
    requires Reachable(s)
    ensures forall u :: u in s.pending ==> u in s.owner && s.owner[u] < |s.listeners|
    ensures forall u, v :: u in s.pending && v in s.pending && s.owner[u] == s.owner[v] ==> u == v
    ensures |s.pending| <= |s.listeners|
  {
    ReachableInv(s);
    forall u, v | u in s.pending && v in s.pending && s.owner[u] == s.owner[v] ensures u == v {
      assert Names(s.listeners[s.owner[u]].phase) == Some(u);
    }
    InjectiveBound(s.pending, s.owner, |s.listeners|);
  }

  /** Bytes waiting in the channels of `us`. */
  ghost function Buffered(e: End, us: set<Uuid>): nat
    requires us <= e.chans.Keys
  {
    if us == {} then 0
    else
      var u :| u in us;
      |Bytes(e.chans[u])| + Buffered(e, us - {u})
  }

  lemma {:induction false} BytesBound(ms: seq<PortMessage>)
    requires Small(ms)
    ensures |Bytes(ms)| <= BUFFER_SIZE * |ms|
  {
    if ms != [] {
      BytesBound(ms[..|ms| - 1]);
    }
  }

  /** With at most `most` bytes in each channel. */
  lemma {:induction false} SumBound(e: End, us: set<Uuid>, most: nat)
    requires us <= e.chans.Keys && forall u :: u in us ==> |Bytes(e.chans[u])| <= most
    ensures Buffered(e, us) <= most * |us|
  {
    if us != {} {
      var u :| u in us && Buffered(e, us) == |Bytes(e.chans[u])| + Buffered(e, us - {u});
      SumBound(e, us - {u}, most);
      OneMore(most, |us - {u}|);
      assert |us| == |us - {u}| + 1;
    }
  }

  lemma OneMore(most: nat, k: nat)
    ensures most * (k + 1) == most * k + most
  {
  }

  lemma SmallPart(a: seq<PortMessage>, b: seq<PortMessage>, c: seq<PortMessage>)
    requires a + b <= c && Small(c)
    ensures Small(b)
  {
    forall i | 0 <= i < |b| ensures |Payload(b[i])| <= BUFFER_SIZE {
      assert b[i] == (a + b)[|a| + i] == c[|a| + i];
    }
  }

  lemma ChannelBound(side: Side, from: End, w: Wire, to: End, u: Uuid)
    requires u in to.chans && TasksOk(from) && TableOk(side, to) && Lane(from, w, to, u)
    ensures |Bytes(to.chans[u])| <= BUFFER_SIZE * Capacity(side)
  {
    assert Small(Sent(from, u)) by {
      if u in from.tasks { assert Good(from.tasks[u]); }
    }
    SmallPart(Taken(to, u), Chan(to, u), Sent(from, u));
    BytesBound(to.chans[u]);
  }

  predicate SmallMsg(m: Msg) {
    m.Port? ==> |Payload(m.msg)| <= BUFFER_SIZE
  }

  predicate SmallHand(e: End) {
    (e.loop.Got? ==> SmallMsg(e.loop.msg)) && (e.loop.Blocked? ==> |Payload(e.loop.item)| <= BUFFER_SIZE)
    && (e.loop.Answering? ==> !e.loop.answer.Port?)
  }

  ghost predicate Chunked(s: State) {
    && (forall m :: m in s.down.queue ==> SmallMsg(m))
    && (forall m :: m in s.up.queue ==> SmallMsg(m))
    && SmallHand(s.srv) && SmallHand(s.np)
  }

  lemma TaskChunk(side: Side, e: End, out: Wire, v: Uuid, ev: Event)
    requires TasksOk(e) && TaskEnabled(side, e, out, v, ev)
    requires forall m :: m in out.queue ==> SmallMsg(m)
    ensures forall m :: m in TaskWire(e, out, v, ev).queue ==> SmallMsg(m)
  {
    assert Good(e.tasks[v]);
    if e.tasks[v].phase.Sending? {
      assert Small([e.tasks[v].phase.msg]);
      assert [e.tasks[v].phase.msg][0] == e.tasks[v].phase.msg;
    }
  }

  lemma ReceiveChunks(s: State, side: Side)
    requires Chunked(s) && CanDo(s, ReceiveMsg(side))
    ensures Chunked(Do(s, ReceiveMsg(side)))
  {
  }

  lemma LoopChunks(s: State, a: Action)
    requires Chunked(s) && CanDo(s, a) && (a.DispatchMsg? || a.PushMsg? || a.LoopFails? || a.Release?)
    ensures Chunked(Do(s, a))
  {
  }

  lemma SendChunks(s: State, a: Action)
    requires Chunked(s) && CanDo(s, a) && (a.RequestPort? || a.Announce? || a.Reply? || a.AskNp?)
    ensures Chunked(Do(s, a))
  {
  }

  lemma NpControlChunks(s: State, a: Action)
    requires Chunked(s) && CanDo(s, a) && (a.HandleOpened? || a.HandleConnect? || a.Dial?)
    ensures Chunked(Do(s, a))
  {
  }

  lemma PhaseChunks(s: State, a: Action)
    requires Chunked(s) && CanDo(s, a) && (a.Accept? || a.StopListener? || a.Resume?)
    ensures Chunked(Do(s, a))
  {
  }

  lemma BindChunks(s: State, port: Option<Port>)
    requires Chunked(s) && s.srv.loop.Got? && s.srv.loop.msg.Open?
    ensures Chunked(DoBind(s, port))
  {
  }

  lemma ConnectedChunks(s: State)
    requires Chunked(s) && s.srv.loop.Got? && s.srv.loop.msg.Connected?
    ensures Chunked(DoConnected(s))
  {
    assert DoConnected(s).np == s.np && DoConnected(s).down == s.down && DoConnected(s).up == s.up;
  }

  lemma StepChunks(s: State, a: Action)
    requires TasksOk(s.srv) && TasksOk(s.np) && Chunked(s) && CanDo(s, a)
    ensures Chunked(Do(s, a))
  {
    match a
    case ServerTask(v, ev) => TaskChunk(Server, s.srv, s.down, v, ev);
    case NpTask(v, ev) => TaskChunk(Np, s.np, s.up, v, ev);
    case ReceiveMsg(side) => ReceiveChunks(s, side);
    case DispatchMsg(_) | PushMsg(_) | LoopFails(_) | Release(_) => LoopChunks(s, a);
    case RequestPort(_, _) | Announce(_) | Reply(_) | AskNp(_, _) => SendChunks(s, a);
    case HandleOpened | HandleConnect | Dial(_) => NpControlChunks(s, a);
    case Bind(port) => BindChunks(s, port);
    case HandleConnected => ConnectedChunks(s);
    case Accept(_, _) | StopListener(_) | Resume(_) => PhaseChunks(s, a);
  }

  lemma {:induction false} RunChunks(s: State, acts: seq<Action>)
    requires Inv(s) && Chunked(s) && Legal(s, acts)
    ensures Chunked(After(s, acts))
    decreases |acts|
  {
    if acts != [] {
      StepKeeps(s, acts[0]);
      StepChunks(s, acts[0]);
      RunChunks(Do(s, acts[0]), acts[1..]);
    }
  }

  /** Bytes a side has taken off the websocket for its connections and not yet given to
      their tasks: those in its channels and those in its receive loop's hand. */
  ghost function InBuffers(e: End): nat {
    Buffered(e, e.chans.Keys) +
    (if e.loop.Got? && e.loop.msg.Port? then |Payload(e.loop.msg.msg)|
     else if e.loop.Blocked? then |Payload(e.loop.item)| else 0)
  }

  lemma BuffersOf(side: Side, from: End, w: Wire, to: End, most: nat)
    requires TasksOk(from) && TableOk(side, to) && SmallHand(to)
    requires (forall u :: Lane(from, w, to, u)) && most == BUFFER_SIZE * Capacity(side)
    ensures InBuffers(to) <= most * |to.chans| + BUFFER_SIZE
  {
    forall u | u in to.chans.Keys ensures |Bytes(to.chans[u])| <= most {
      ChannelBound(side, from, w, to, u);
    }
    SumBound(to, to.chans.Keys, most);
    assert |to.chans.Keys| == |to.chans|;
  }

  lemma ReachableChunked(s: State)
    requires Reachable(s)
    ensures Chunked(s)
  {
    var host, acts :| Legal(Init(host), acts) && After(Init(host), acts) == s;
    InitInv(host);
    RunChunks(Init(host), acts);
  }

  /** With n connections a side buffers at most one full channel for each of them and one
      message more. */
  lemma BufferBound(s: State)
    requires Reachable(s)
    ensures InBuffers(s.srv) <= 512 * (4 * |s.srv.chans| + 1)
    ensures InBuffers(s.np) <= 512 * (|s.np.chans| + 1)
  {
    ReachableInv(s);
    ReachableChunked(s);
    BuffersOf(Server, s.np, s.up, s.srv, 2048);
    BuffersOf(Np, s.srv, s.down, s.np, 512);
  }
}
