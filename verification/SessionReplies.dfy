/** Handshakes from the server's side: every reply is expected. For each connection the
    request or its answer exists in one place at most, and as long as it does the server's
    table still has the entry of whoever asked. */
module SessionReplies {
  import opened Text
  import opened Addresses
  import opened PortTask
  import opened Session
  import opened SessionInv
  import opened SessionSteps
  import opened SessionHandshake

  /** Number of PortConnected messages for `u` in a queue. */
  function Replies(q: seq<Msg>, u: Uuid): nat {
    if q == [] then 0 else (if q[0].Connected? && q[0].uuid == u then 1 else 0) + Replies(q[1..], u)
  }

  lemma {:induction false} RepliesSnoc(q: seq<Msg>, m: Msg, u: Uuid)
    ensures Replies(q + [m], u) == Replies(q, u) + if m.Connected? && m.uuid == u then 1 else 0
  {
    if q == [] {
      assert q + [m] == [m] && [m][1..] == [];
    } else {
      assert (q + [m])[0] == q[0] && (q + [m])[1..] == q[1..] + [m];
      RepliesSnoc(q[1..], m, u);
    }
  }

  /** np is about to send the reply for `u`. */
  predicate Answers(np: End, u: Uuid) {
    np.loop.Answering? && np.loop.answer.Connected? && np.loop.answer.uuid == u
  }

  /** The server has received it. */
  predicate Hears(srv: End, u: Uuid) {
    srv.loop.Got? && srv.loop.msg.Connected? && srv.loop.msg.uuid == u
  }

  /** Where the handshake of `u` is: its PortConnect, still to come or not yet answered, or
      the PortConnected on its way back. */
  function Open(s: State, u: Uuid): nat {
    Tokens(s, u) + Replies(s.up.queue, u) + (if Answers(s.np, u) then 1 else 0) + (if Hears(s.srv, u) then 1 else 0)
  }

  predicate Expected(s: State, u: Uuid) {
    Open(s, u) <= 1 && (Open(s, u) == 1 ==> u in s.pending)
  }

  ghost predicate AllExpected(s: State) {
    forall u :: Expected(s, u)
  }

  // ---------- steps that leave the handshakes where they are, or move them on

  /** A task of either side sends data or a close. */
  lemma TaskOpen(s: State, a: Action, u: Uuid)
    requires (a.ServerTask? || a.NpTask?) && CanDo(s, a)
    ensures Open(Do(s, a), u) == Open(s, u)
  {
    if a.ServerTask? {
      TaskWireOutline(s.srv, s.down, a.uuid, a.ev, u);
    } else {
      var ev := a.ev;
      if ev.SendOk? || (ev.SendError? && ev.reached) {
        RepliesSnoc(s.up.queue, Port(a.uuid, s.np.tasks[a.uuid].phase.msg), u);
      }
    }
  }

  lemma ReceiveOpen(s: State, side: Side, u: Uuid)
    requires CanDo(s, ReceiveMsg(side))
    ensures Open(Do(s, ReceiveMsg(side)), u) <= Open(s, u)
  {
    var s' := Do(s, ReceiveMsg(side));
    if side.Server? {
      assert s'.np == s.np && s'.down == s.down && s'.up.queue == s.up.queue[1..];
      assert s'.srv.loop == Got(s.up.queue[0]);
    } else {
      assert s'.srv == s.srv && s'.up == s.up && s'.down.queue == s.down.queue[1..];
      assert s'.np.loop == Got(s.down.queue[0]);
    }
    assert Asked(s', u) == Asked(s, u);
  }

  lemma LoopOpen(s: State, a: Action, u: Uuid)
    requires CanDo(s, a) && (a.DispatchMsg? || a.PushMsg? || a.LoopFails? || a.Release?)
    ensures Open(Do(s, a), u) == Open(s, u)
  {
  }

  /** The server announces a listener or refuses, or np asks for one. */
  lemma PortOpen(s: State, a: Action, u: Uuid)
    requires CanDo(s, a) && (a.RequestPort? || a.Announce?)
    requires s.srv.loop.Answering? ==> AnswerOk(s, s.srv.loop.answer)
    ensures Open(Do(s, a), u) == Open(s, u)
  {
    if a.RequestPort? {
      RepliesSnoc(s.up.queue, Msg.Open(a.local), u);
    } else {
      ConnectsSnoc(s.down.queue, s.srv.loop.answer, u);
    }
  }

  lemma BindOpen(s: State, port: Option<Port>, u: Uuid)
    requires Desk(s) && s.srv.loop.Got? && s.srv.loop.msg.Open?
    ensures Open(DoBind(s, port), u) == Open(s, u)
  {
    assert Asked(DoBind(s, port), u) == Asked(s, u);
  }

  /** A listener moves between phases none of which is asking. */
  lemma PhaseOpen(s: State, s': State, l: nat, phase: AcceptPhase, u: Uuid)
    requires l < |s.listeners| && !s.listeners[l].phase.Asking? && !phase.Asking?
    requires s'.listeners == s.listeners[l := s.listeners[l].(phase := phase)] && s'.owner == s.owner
    requires s'.down == s.down && s'.up == s.up && s'.np == s.np && s'.srv.loop == s.srv.loop
    ensures Open(s', u) == Open(s, u)
  {
    assert Asked(s', u) == Asked(s, u);
  }

  lemma NpOpen(s: State, a: Action, u: Uuid)
    requires CanDo(s, a) && (a.HandleOpened? || a.HandleConnect? || a.Dial?)
    ensures Open(Do(s, a), u) == Open(s, u)
  {
  }

  lemma ReplyOpen(s: State, fate: Fate, u: Uuid)
    requires CanDo(s, Reply(fate))
    ensures Open(Do(s, Reply(fate)), u) <= Open(s, u)
  {
    RepliesSnoc(s.up.queue, s.np.loop.answer, u);
  }

  lemma AskOpen(s: State, l: nat, fate: Fate, u: Uuid)
    requires Desk(s) && l < |s.listeners| && s.listeners[l].phase.Asking?
    ensures Open(DoAsk(s, l, fate), u) <= Open(s, u)
  {
    var v := s.listeners[l].phase.uuid;
    assert Names(s.listeners[l].phase) == Some(v);
    ConnectsSnoc(s.down.queue, Connect(v, ToAddress(Remote(s, l))), u);
    assert Asked(DoAsk(s, l, fate), u) == (Asked(s, u) && u != v);
  }

  lemma AcceptOpen(s: State, l: nat, v: Uuid, u: Uuid)
    requires CanDo(s, Accept(l, v))
    ensures Open(DoAccept(s, l, v), u) == Open(s, u) + if u == v then 1 else 0
  {
    assert u != v ==> Asked(DoAccept(s, l, v), u) == Asked(s, u);
  }

  lemma ConnectedOpen(s: State, u: Uuid)
    requires s.srv.loop.Got? && s.srv.loop.msg.Connected?
    ensures Open(DoConnected(s), u) == Open(s, u) - if u == s.srv.loop.msg.uuid then 1 else 0
  {
    ConnectedAsks(s, u);
    ConnectedView(s);
  }

  lemma ConnectedAsks(s: State, u: Uuid)
    requires s.srv.loop.Got? && s.srv.loop.msg.Connected?
    ensures Asked(DoConnected(s), u) == Asked(s, u)
  {
  }

  // ---------- all steps, all runs

  /** Steps that keep the connection requests. */
  predicate KeepsDesk(a: Action) {
    !a.Accept? && !a.HandleConnected?
  }

  lemma PendingStays(s: State, a: Action)
    requires CanDo(s, a) && KeepsDesk(a)
    ensures Do(s, a).pending == s.pending
  {
  }

  lemma StepFalls(s: State, a: Action, u: Uuid)
    requires Desk(s) && Dials(s) && CanDo(s, a) && KeepsDesk(a) && !a.AskNp? && !a.Resume? && !a.StopListener? && !a.Bind?
    ensures Open(Do(s, a), u) <= Open(s, u)
  {
    match a
    case ServerTask(_, _) | NpTask(_, _) => TaskOpen(s, a, u);
    case ReceiveMsg(side) => ReceiveOpen(s, side, u);
    case DispatchMsg(_) | PushMsg(_) | LoopFails(_) | Release(_) => LoopOpen(s, a, u);
    case RequestPort(_, _) | Announce(_) => PortOpen(s, a, u);
    case HandleOpened | HandleConnect | Dial(_) => NpOpen(s, a, u);
    case Reply(fate) => ReplyOpen(s, fate, u);
  }

  lemma ListenerFalls(s: State, a: Action, u: Uuid)
    requires Desk(s) && CanDo(s, a) && (a.AskNp? || a.Resume? || a.StopListener? || a.Bind?)
    ensures Open(Do(s, a), u) <= Open(s, u)
  {
    match a
    case Bind(port) => BindOpen(s, port, u);
    case Resume(l) => PhaseOpen(s, DoResume(s, l), l, Accepting, u);
    case StopListener(l) => PhaseOpen(s, SetPhase(s, l, Stopped(None)), l, Stopped(None), u);
    case AskNp(l, fate) => AskOpen(s, l, fate, u);
  }

  lemma StepExpected(s: State, a: Action, u: Uuid)
    requires Desk(s) && Dials(s) && Expected(s, u) && CanDo(s, a)
    ensures Expected(Do(s, a), u)
  {
    if a.Accept? {
      AcceptExpected(s, a.listener, a.uuid, u);
    } else if a.HandleConnected? {
      ConnectedExpected(s, u);
    } else {
      PendingStays(s, a);
      if a.AskNp? || a.Resume? || a.StopListener? || a.Bind? {
        ListenerFalls(s, a, u);
      } else {
        StepFalls(s, a, u);
      }
    }
  }

  lemma AcceptExpected(s: State, l: nat, v: Uuid, u: Uuid)
    requires Desk(s) && Expected(s, u) && CanDo(s, Accept(l, v))
    ensures Expected(DoAccept(s, l, v), u)
  {
    AcceptOpen(s, l, v, u);
  }

  lemma ConnectedExpected(s: State, u: Uuid)
    requires Expected(s, u) && s.srv.loop.Got? && s.srv.loop.msg.Connected?
    ensures Expected(DoConnected(s), u)
  {
    ConnectedOpen(s, u);
    ConnectedView(s);
  }

  lemma {:induction false} RunExpected(s: State, acts: seq<Action>)
    requires Inv(s) && AllExpected(s) && Legal(s, acts)
    ensures AllExpected(After(s, acts))
    decreases |acts|
  {
    if acts != [] {
      StepKeeps(s, acts[0]);
      forall u ensures Expected(Do(s, acts[0]), u) {
        StepExpected(s, acts[0], u);
      }
      RunExpected(Do(s, acts[0]), acts[1..]);
    }
  }

  lemma InitExpected(host: Option<string>)
    ensures AllExpected(Init(host))
  {
  }

  lemma ReachableExpected(s: State)
    requires Reachable(s)
    ensures Inv(s) && AllExpected(s)
  {
    var host, acts :| Legal(Init(host), acts) && After(Init(host), acts) == s;
    InitInv(host);
    RunKeeps(Init(host), acts);
    InitExpected(host);
    RunExpected(Init(host), acts);
  }

  /** A PortConnected always finds who asked, so it never ends the session: the accept loop
      of its connection is waiting for it, or gave up when its PortConnect seemed to fail. */
  lemma ReplyFindsWhoAsked(s: State, u: Uuid, ok: bool)
    requires Reachable(s) && s.srv.loop == Got(Connected(u, ok))
    ensures u in s.pending && DoConnected(s).srv.loop == Idle
    ensures u in s.owner && s.owner[u] < |s.listeners|
    ensures s.listeners[s.owner[u]].phase in {Waiting(u), Stopped(Some(u))}
  {
    ReachableExpected(s);
    assert Expected(s, u);
  }

  /** Hence the only message that makes the server end a session is data or a close for a
      connection that it has no writer for. */
  lemma OnlyUnknownDataEnds(s: State, a: Action)
    requires Reachable(s) && CanDo(s, a) && !s.srv.loop.Dead? && Do(s, a).srv.loop.Dead?
    ensures a == LoopFails(Server)
            || (a.Announce? && !a.fate.Delivered?)
            || (a == DispatchMsg(Server) && s.srv.loop.msg.uuid !in s.srv.chans)
  {
    if a.HandleConnected? {
      var Connected(u, ok) := s.srv.loop.msg;
      ReplyFindsWhoAsked(s, u, ok);
    } else if !(a == LoopFails(Server) || a.Announce? || a == DispatchMsg(Server)) {
      LoopGoesOn(s, a);
    }
  }

  lemma LoopGoesOn(s: State, a: Action)
    requires CanDo(s, a) && !s.srv.loop.Dead?
    requires !a.HandleConnected? && a != LoopFails(Server) && !a.Announce? && a != DispatchMsg(Server)
    ensures !Do(s, a).srv.loop.Dead?
  {
    match a
    case Bind(_) | Resume(_) | ReceiveMsg(_) | PushMsg(_) | ServerTask(_, _) | Release(_) =>
    case _ => LoopUntouched(s, a);
  }

  lemma LoopUntouched(s: State, a: Action)
    requires CanDo(s, a) && a != LoopFails(Server) && a != DispatchMsg(Server)
    requires a.RequestPort? || a.NpTask? || a.Accept? || a.AskNp? || a.StopListener? || a.HandleOpened?
             || a.HandleConnect? || a.Dial? || a.Reply? || a.LoopFails? || a.DispatchMsg?
    ensures Do(s, a).srv.loop == s.srv.loop
  {
  }

  // ---------- what the reply says is what the accept loop hears

  predicate Answered(s: State, l: nat)
    requires l < |s.listeners|
  {
    var p := s.listeners[l].phase;
    p.Replied? ==> (p.ok <==> p.uuid in s.confirmed)
  }

  /** An accept loop has been told yes exactly if the reply was positive; nobody is confirmed
      before the reply. */
  ghost predicate Told(s: State) {
    && (forall u :: u in s.confirmed ==> u in s.owner && u !in s.pending)
    && (forall l: nat :: l < |s.listeners| ==> Answered(s, l))
  }

  lemma ToldFrame(s: State, s': State)
    requires Told(s) && s'.owner == s.owner && s'.pending == s.pending && s'.confirmed == s.confirmed
    requires |s'.listeners| >= |s.listeners|
    requires forall l: nat :: l < |s'.listeners| && s'.listeners[l].phase.Replied? ==>
               l < |s.listeners| && s'.listeners[l].phase == s.listeners[l].phase
    ensures Told(s')
  {
    forall l: nat | l < |s'.listeners| ensures Answered(s', l) {
      assert s'.listeners[l].phase.Replied? ==> Answered(s, l);
    }
  }

  /** Steps other than these two leave the requests, the replies and who is confirmed. */
  lemma OthersView(s: State, a: Action)
    requires CanDo(s, a) && KeepsDesk(a)
    ensures var s' := Do(s, a);
            s'.owner == s.owner && s'.confirmed == s.confirmed && |s'.listeners| >= |s.listeners|
  {
    if !(a.Bind? || a.AskNp? || a.Resume? || a.StopListener?) {
      ListenersStay(s, a);
    }
  }

  lemma ListenersStay(s: State, a: Action)
    requires CanDo(s, a) && KeepsDesk(a) && !a.Bind? && !a.AskNp? && !a.Resume? && !a.StopListener?
    ensures var s' := Do(s, a); s'.owner == s.owner && s'.confirmed == s.confirmed && s'.listeners == s.listeners
  {
  }

  lemma OthersReply(s: State, a: Action, l: nat)
    requires CanDo(s, a) && KeepsDesk(a) && l < |Do(s, a).listeners| && Do(s, a).listeners[l].phase.Replied?
    ensures l < |s.listeners| && Do(s, a).listeners[l].phase == s.listeners[l].phase
  {
  }

  lemma AcceptTold(s: State, l: nat, u: Uuid)
    requires Told(s) && CanDo(s, Accept(l, u))
    ensures Told(DoAccept(s, l, u))
  {
    var s' := DoAccept(s, l, u);
    forall k: nat | k < |s'.listeners| ensures Answered(s', k) {
      assert Answered(s, k);
    }
  }

  lemma ConnectedTold(s: State)
    requires Desk(s) && Told(s) && s.srv.loop.Got? && s.srv.loop.msg.Connected?
    ensures Told(DoConnected(s))
  {
    var s', u := DoConnected(s), s.srv.loop.msg.uuid;
    assert s'.owner == s.owner;
    forall k: nat | k < |s'.listeners| ensures Answered(s', k) {
      assert Answered(s, k);
      assert Names(s.listeners[k].phase) == Some(u) ==> s.owner[u] == k;
    }
  }

  lemma StepTold(s: State, a: Action)
    requires Desk(s) && Told(s) && CanDo(s, a)
    ensures Told(Do(s, a))
  {
    if a.Accept? {
      AcceptTold(s, a.listener, a.uuid);
    } else if a.HandleConnected? {
      ConnectedTold(s);
    } else {
      PendingStays(s, a);
      OthersView(s, a);
      forall l: nat | l < |Do(s, a).listeners| && Do(s, a).listeners[l].phase.Replied?
        ensures l < |s.listeners| && Do(s, a).listeners[l].phase == s.listeners[l].phase
      {
        OthersReply(s, a, l);
      }
      ToldFrame(s, Do(s, a));
    }
  }

  lemma {:induction false} RunTold(s: State, acts: seq<Action>)
    requires Inv(s) && Told(s) && Legal(s, acts)
    ensures Told(After(s, acts))
    decreases |acts|
  {
    if acts != [] {
      StepKeeps(s, acts[0]);
      StepTold(s, acts[0]);
      RunTold(Do(s, acts[0]), acts[1..]);
    }
  }

  /** In every reachable state: an accept loop that has its reply was told yes if and only if
      a positive reply was handled. */
  lemma ToldTheTruth(s: State, l: nat, u: Uuid, ok: bool)
    requires Reachable(s) && l < |s.listeners| && s.listeners[l].phase == Replied(u, ok)
    ensures ok <==> u in s.confirmed
  {
    var host, acts :| Legal(Init(host), acts) && After(Init(host), acts) == s;
    InitInv(host);
    RunTold(Init(host), acts);
    assert Answered(s, l);
  }

  /** The server has the reply to a connection whose accept loop waits. Handling it and
      resuming that loop, which can be done at once, leaves a task and a writer for the
      connection if and only if the reply was positive, and nothing else changed on the
      server. */
  lemma HandshakeCompletes(s: State, l: nat, u: Uuid, ok: bool)
    requires Reachable(s) && s.srv.loop == Got(Connected(u, ok))
    requires l < |s.listeners| && s.listeners[l].phase == Waiting(u)
    ensures var acts := [HandleConnected, Resume(l)];
            Legal(s, acts) && var s' := After(s, acts);
            && s'.srv.tasks == (if ok then s.srv.tasks[u := NewTask] else s.srv.tasks)
            && s'.srv.chans == (if ok then s.srv.chans[u := []] else s.srv.chans)
            && s'.listeners == s.listeners[l := s.listeners[l].(phase := Accepting)]
            && s'.srv.loop == Idle && s'.pending == s.pending - {u}
            && u !in s.srv.tasks && u !in s.srv.chans && (ok ==> u in s.np.tasks)
  {
    ReplyFindsWhoAsked(s, u, ok);
    WaiterIsFree(s, l, u, ok);
    TellsWaiter(s, l, u, ok);
    ResumeTakes(DoConnected(s), l, u, ok);
    Two(s, HandleConnected, Resume(l));
  }

  lemma WaiterIsFree(s: State, l: nat, u: Uuid, ok: bool)
    requires Reachable(s) && s.srv.loop == Got(Connected(u, ok))
    requires l < |s.listeners| && s.listeners[l].phase == Waiting(u)
    ensures u in s.owner && s.owner[u] == l && u !in s.srv.tasks && u !in s.srv.chans && (ok ==> u in s.np.tasks)
  {
    ReachableExpected(s);
    assert Names(s.listeners[l].phase) == Some(u);
    assert Conn(s, u);
  }

  /** The accept loop of `u` waits for the reply. */
  predicate IsAwaited(s: State, u: Uuid) {
    u in s.owner && s.owner[u] < |s.listeners| && s.listeners[s.owner[u]].phase == Waiting(u)
  }

  /** The accept loop that waits hears exactly what the reply says; no other does. */
  lemma TellsWaiter(s: State, l: nat, u: Uuid, ok: bool)
    requires s.srv.loop == Got(Connected(u, ok)) && u in s.pending && u in s.owner && s.owner[u] == l
    requires l < |s.listeners| && s.listeners[l].phase == Waiting(u)
    ensures DoConnected(s).listeners == s.listeners[l := s.listeners[l].(phase := Replied(u, ok))]
  {
  }

  lemma ResumeTakes(s: State, l: nat, u: Uuid, ok: bool)
    requires l < |s.listeners| && s.listeners[l].phase == Replied(u, ok) && u !in s.srv.chans
    ensures var s' := DoResume(s, l);
            && s'.listeners == s.listeners[l := s.listeners[l].(phase := Accepting)]
            && s'.srv.tasks == (if ok then s.srv.tasks[u := NewTask] else s.srv.tasks)
            && s'.srv.chans == (if ok then s.srv.chans[u := []] else s.srv.chans)
            && s'.srv.loop == s.srv.loop && s'.pending == s.pending
  {
  }
}
