/** The steps of accept loops and of the handshake keep the invariant. */
module SessionHandshake {
  import opened Text
  import opened Addresses
  import opened PortTask
  import opened Session
  import opened Lanes
  import opened SessionInv
  import opened SessionSteps

  // ---------- a loop takes up other work, with no port message in hand

  predicate Turns(e: End, loop: Loop) {
    && (e.loop.Got? ==> !e.loop.msg.Port?) && !e.loop.Blocked? && !e.loop.Dead? && !e.released
    && !loop.Got? && !loop.Blocked?
  }

  lemma TurnLanes(s: State, side: Side, loop: Loop)
    requires InLanes(s) && Turns(EndOf(s, side), loop)
    ensures InLanes(WithEnd(s, side, EndOf(s, side).(loop := loop)))
  {
    IntoFrom(s, side);
    EmptyHandLanes(s, side, loop);
    SwapLanes(s, side, EndOf(s, side).(loop := loop));
  }

  lemma TurnEnds(s: State, side: Side, loop: Loop)
    requires Ends(s) && Turns(EndOf(s, side), loop)
    ensures Ends(WithEnd(s, side, EndOf(s, side).(loop := loop)))
  {
  }

  lemma ServerTurnShakes(s: State, loop: Loop)
    requires Shakes(s) && Turns(s.srv, loop)
    ensures Shakes(s.(srv := s.srv.(loop := loop)))
  {
    var s' := s.(srv := s.srv.(loop := loop));
    DeskFrame(s, s');
    forall u ensures Conn(s', u) && Traced(s', u) {
      assert Conn(s, u) && Traced(s, u);
      assert Vouched(s', u) ==> Vouched(s, u);
      ConnFrame(s, s', u);
      TracedFrame(s, s', u);
    }
  }

  lemma ServerTurnPorts(s: State, loop: Loop)
    requires Dials(s) && Forwards(s) && Turns(s.srv, loop)
    requires loop.Answering? ==> AnswerOk(s, loop.answer)
    ensures var s' := s.(srv := s.srv.(loop := loop)); Dials(s') && Forwards(s')
  {
    var s' := s.(srv := s.srv.(loop := loop));
    DialsFrame(s, s');
    ForwardsFrame(s, s');
  }

  lemma ServerTurns(s: State, loop: Loop)
    requires Inv(s) && Turns(s.srv, loop) && (loop.Answering? ==> AnswerOk(s, loop.answer))
    ensures Inv(s.(srv := s.srv.(loop := loop)))
  {
    TurnEnds(s, Server, loop);
    TurnLanes(s, Server, loop);
    ServerTurnShakes(s, loop);
    ServerTurnPorts(s, loop);
  }

  lemma NpTurnShakes(s: State, loop: Loop)
    requires Shakes(s) && Turns(s.np, loop)
    requires loop.Dialling? ==> InHand(s.np, loop.uuid)
    requires loop.Answering? && loop.answer.Connected? && loop.answer.ok ==> loop.answer.uuid in s.np.tasks
    ensures Shakes(s.(np := s.np.(loop := loop)))
  {
    var s' := s.(np := s.np.(loop := loop));
    DeskFrame(s, s');
    forall u ensures Conn(s', u) && Traced(s', u) {
      assert Conn(s, u) && Traced(s, u);
      assert InHand(s'.np, u) ==> InHand(s.np, u);
      assert Vouched(s', u) ==> Vouched(s, u) || loop == Answering(Connected(u, true));
      ConnFrame(s, s', u);
      TracedFrame(s, s', u);
    }
  }

  lemma NpTurnPorts(s: State, loop: Loop)
    requires Dials(s) && Forwards(s) && Turns(s.np, loop)
    requires loop.Dialling? ==> Meant(s, loop.uuid, loop.target)
    requires loop.Answering? ==> loop.answer.Connected?
    ensures var s' := s.(np := s.np.(loop := loop)); Dials(s') && Forwards(s')
  {
    var s' := s.(np := s.np.(loop := loop));
    DialsFrame(s, s');
    ForwardsFrame(s, s');
  }

  lemma NpTurns(s: State, loop: Loop)
    requires Inv(s) && Turns(s.np, loop)
    requires loop.Dialling? ==> InHand(s.np, loop.uuid) && Meant(s, loop.uuid, loop.target)
    requires loop.Answering? ==> loop.answer.Connected? && (loop.answer.ok ==> loop.answer.uuid in s.np.tasks)
    ensures Inv(s.(np := s.np.(loop := loop)))
  {
    TurnEnds(s, Np, loop);
    TurnLanes(s, Np, loop);
    NpTurnShakes(s, loop);
    NpTurnPorts(s, loop);
  }

  // ---------- a port is opened

  lemma AddShakes(s: State, l: Listener)
    requires Shakes(s) && l.phase.Accepting?
    ensures Shakes(s.(listeners := s.listeners + [l]))
  {
    var s' := s.(listeners := s.listeners + [l]);
    forall u ensures Conn(s', u) && Traced(s', u) {
      assert Conn(s, u) && Traced(s, u);
      assert Asked(s', u) == Asked(s, u) && Vouched(s', u) == Vouched(s, u);
    }
  }

  lemma PortTaken(s: State, p: Port)
    requires Desk(s) && PortFree(s, p) && !s.srv.released
    ensures forall l :: 0 <= l < |s.listeners| && s.listeners[l].port == p ==> s.down.broken
  {
  }

  lemma AddPorts(s: State, l: Listener)
    requires Dials(s) && Forwards(s) && l.mute == s.down.broken
    requires forall i :: 0 <= i < |s.listeners| && s.listeners[i].port == l.port ==> s.down.broken
    ensures var s' := s.(listeners := s.listeners + [l]); Dials(s') && Forwards(s')
  {
    var s' := s.(listeners := s.listeners + [l]);
    ForwardsFrame(s, s');
    assert forall m :: Truthful(s, m) ==> Truthful(s', m);
    assert forall u, a :: Meant(s, u, a) ==> Meant(s', u, a);
  }

  lemma AddKeeps(s: State, l: Listener)
    requires Inv(s) && PortFree(s, l.port) && !s.srv.released && l.phase.Accepting? && l.mute == s.down.broken
    ensures Inv(s.(listeners := s.listeners + [l]))
  {
    var s' := s.(listeners := s.listeners + [l]);
    PortTaken(s, l.port);
    AddShakes(s, l);
    AddPorts(s, l);
    OnlyPeople(s, s');
  }

  /** The ends and the lanes do not depend on the accept loops. */
  lemma OnlyPeople(s: State, s': State)
    requires Ends(s) && InLanes(s)
    requires s'.srv == s.srv && s'.np == s.np && s'.down == s.down && s'.up == s.up
    ensures Ends(s') && InLanes(s')
  {
    forall u ensures Lane(s'.srv, s'.down, s'.np, u) && Lane(s'.np, s'.up, s'.srv, u) {
      assert Lane(s.srv, s.down, s.np, u) && Lane(s.np, s.up, s.srv, u);
    }
  }

  lemma NewListener(s: State, port: Port, local: Addr)
    requires Inv(s) && PortFree(s, port) && s.srv.loop.Got? && s.srv.loop.msg == Open(local)
    ensures var s1 := s.(listeners := s.listeners + [Listener(port, local, Accepting, s.down.broken)]);
            Inv(s1) && AnswerOk(s1, Opened(ToAddress(Addr(s.host, port)), local, |s.listeners|))
  {
    AddKeeps(s, Listener(port, local, Accepting, s.down.broken));
  }

  lemma BindKeeps(s: State, port: Option<Port>)
    requires Inv(s) && CanDo(s, Bind(port))
    ensures Inv(DoBind(s, port))
  {
    if port == None {
      ServerTurns(s, Answering(Refused));
    } else {
      var local := s.srv.loop.msg.local;
      NewListener(s, port.value, local);
      ServerTurns(s.(listeners := s.listeners + [Listener(port.value, local, Accepting, s.down.broken)]),
                  Answering(Opened(ToAddress(Addr(s.host, port.value)), local, |s.listeners|)));
    }
  }

  // ---------- an accept loop moves on

  lemma PhaseDesk(s: State, l: nat, p: AcceptPhase)
    requires Desk(s) && l < |s.listeners|
    requires Names(p) == None || Names(p) == Names(s.listeners[l].phase)
    requires p.Stopped? ==> s.down.broken || s.srv.released
    requires Names(s.listeners[l].phase).Some? && Names(s.listeners[l].phase).value in s.pending ==>
      Names(p).Some? && !p.Replied?
    ensures Desk(SetPhase(s, l, p))
  {
  }

  lemma PhaseConn(s: State, l: nat, p: AcceptPhase, u: Uuid)
    requires Conn(s, u) && l < |s.listeners|
    requires !p.Asking? && (p.Replied? && p.ok ==> p.uuid in s.np.tasks)
    ensures Conn(SetPhase(s, l, p), u)
  {
    var s' := SetPhase(s, l, p);
    assert Asked(s', u) ==> Asked(s, u);
    assert Vouched(s', u) ==> Vouched(s, u) || p == Replied(u, true);
    ConnFrame(s, s', u);
  }

  lemma PhaseTraced(s: State, l: nat, p: AcceptPhase, u: Uuid)
    requires Traced(s, u) && l < |s.listeners| && !p.Asking?
    ensures Traced(SetPhase(s, l, p), u)
  {
    var s' := SetPhase(s, l, p);
    assert Asked(s', u) ==> Asked(s, u);
  }

  lemma PhaseShakes(s: State, l: nat, p: AcceptPhase)
    requires Shakes(s) && l < |s.listeners|
    requires Names(p) == None || Names(p) == Names(s.listeners[l].phase)
    requires p.Stopped? ==> s.down.broken || s.srv.released
    requires Names(s.listeners[l].phase).Some? && Names(s.listeners[l].phase).value in s.pending ==>
      Names(p).Some? && !p.Replied?
    requires !p.Asking? && (p.Replied? && p.ok ==> p.uuid in s.np.tasks)
    ensures Shakes(SetPhase(s, l, p))
  {
    PhaseDesk(s, l, p);
    forall u ensures Conn(SetPhase(s, l, p), u) && Traced(SetPhase(s, l, p), u) {
      PhaseConn(s, l, p, u);
      PhaseTraced(s, l, p, u);
    }
  }

  lemma PhasePorts(s: State, l: nat, p: AcceptPhase)
    requires Dials(s) && Forwards(s) && l < |s.listeners|
    ensures Dials(SetPhase(s, l, p)) && Forwards(SetPhase(s, l, p))
  {
    var s' := SetPhase(s, l, p);
    ForwardsFrame(s, s');
    PeopleDials(s, s');
  }

  /** What is promised about ports survives changes to the phases and new uuids. */
  lemma PeopleDials(s: State, s': State)
    requires Dials(s) && SamePorts(s, s') && |s'.listeners| == |s.listeners|
    requires forall u :: u in s.owner ==> u in s'.owner && s'.owner[u] == s.owner[u]
    requires s'.srv == s.srv && s'.np == s.np && s'.down == s.down && s'.dialled == s.dialled
    ensures Dials(s')
  {
    assert forall m :: Truthful(s, m) ==> Truthful(s', m);
    assert forall u, a :: Meant(s, u, a) ==> Meant(s', u, a);
  }

  lemma PhaseKeeps(s: State, l: nat, p: AcceptPhase)
    requires Inv(s) && l < |s.listeners|
    requires Names(p) == None || Names(p) == Names(s.listeners[l].phase)
    requires p.Stopped? ==> s.down.broken || s.srv.released
    requires Names(s.listeners[l].phase).Some? && Names(s.listeners[l].phase).value in s.pending ==>
      Names(p).Some? && !p.Replied?
    requires !p.Asking? && (p.Replied? && p.ok ==> p.uuid in s.np.tasks)
    ensures Inv(SetPhase(s, l, p))
  {
    PhaseShakes(s, l, p);
    PhasePorts(s, l, p);
    OnlyPeople(s, SetPhase(s, l, p));
  }

  lemma StopListenerKeeps(s: State, l: nat)
    requires Inv(s) && CanDo(s, StopListener(l))
    ensures Inv(Do(s, StopListener(l)))
  {
    PhaseKeeps(s, l, Stopped(None));
  }

  // ---------- a connection is accepted

  lemma AcceptDesk(s: State, l: nat, u: Uuid)
    requires Desk(s) && CanDo(s, Accept(l, u)) && u !in s.srv.tasks
    ensures Desk(Do(s, Accept(l, u)))
  {
  }

  lemma AcceptConn(s: State, l: nat, u: Uuid, v: Uuid)
    requires Conn(s, v) && CanDo(s, Accept(l, u))
    ensures Conn(Do(s, Accept(l, u)), v)
  {
    var s' := Do(s, Accept(l, u));
    if v != u {
      assert Asked(s', v) == Asked(s, v);
      assert Vouched(s', v) ==> Vouched(s, v);
    } else {
      assert Vouched(s', v) ==> Vouched(s, v);
    }
  }

  lemma AcceptTraced(s: State, l: nat, u: Uuid, v: Uuid)
    requires Traced(s, v) && CanDo(s, Accept(l, u))
    ensures Traced(Do(s, Accept(l, u)), v)
  {
    var s' := Do(s, Accept(l, u));
    if v != u {
      assert Asked(s', v) == Asked(s, v);
    }
  }

  lemma AcceptShakes(s: State, l: nat, u: Uuid)
    requires Shakes(s) && CanDo(s, Accept(l, u))
    ensures Shakes(Do(s, Accept(l, u)))
  {
    assert Conn(s, u);
    AcceptDesk(s, l, u);
    forall v ensures Conn(Do(s, Accept(l, u)), v) && Traced(Do(s, Accept(l, u)), v) {
      AcceptConn(s, l, u, v);
      AcceptTraced(s, l, u, v);
    }
  }

  lemma AcceptPorts(s: State, l: nat, u: Uuid)
    requires Dials(s) && Forwards(s) && l < |s.listeners| && u !in s.owner
    ensures Dials(DoAccept(s, l, u)) && Forwards(DoAccept(s, l, u))
  {
    PhasePorts(s, l, Asking(u));
    NewOwner(SetPhase(s, l, Asking(u)), l, u);
  }

  lemma NewOwner(s: State, l: nat, u: Uuid)
    requires Dials(s) && Forwards(s) && l < |s.listeners| && u !in s.owner
    ensures var s' := s.(pending := s.pending + {u}, owner := s.owner[u := l]); Dials(s') && Forwards(s')
  {
    var s' := s.(pending := s.pending + {u}, owner := s.owner[u := l]);
    ForwardsFrame(s, s');
    PeopleDials(s, s');
  }

  lemma AcceptKeeps(s: State, l: nat, u: Uuid)
    requires Inv(s) && CanDo(s, Accept(l, u))
    ensures Inv(Do(s, Accept(l, u)))
  {
    AcceptShakes(s, l, u);
    AcceptPorts(s, l, u);
    OnlyPeople(s, Do(s, Accept(l, u)));
  }

  // ---------- PortConnect is sent

  /** Nothing about `u` was sent yet and np has no task for it. */
  predicate Untold(s: State, u: Uuid) {
    && Tokens(s, u) == 0 && u !in s.np.tasks && u !in s.srv.tasks
    && Trace(s.down.log, u) == [] && u in s.owner && s.owner[u] < |s.listeners|
  }

  lemma AskedUntold(s: State, l: nat)
    requires Shakes(s) && l < |s.listeners| && s.listeners[l].phase.Asking?
    ensures var u := s.listeners[l].phase.uuid;
            s.owner.Keys >= {u} && s.owner[u] == l && Untold(SetPhase(s, l, Waiting(u)), u)
  {
    var u := s.listeners[l].phase.uuid;
    assert Names(s.listeners[l].phase) == Some(u);
    assert Conn(s, u) && Traced(s, u) && Asked(s, u);
  }

  lemma TellConn(s: State, m: Msg, fate: Fate, v: Uuid)
    requires Conn(s, v) && m.Connect? && Untold(s, m.uuid)
    ensures Conn(s.(down := Send(s.down, m, fate)), v)
  {
    ConnectsSnoc(s.down.queue, m, v);
    var s' := s.(down := Send(s.down, m, fate));
    assert Vouched(s', v) == Vouched(s, v) && Asked(s', v) == Asked(s, v);
  }

  lemma TellTraced(s: State, m: Msg, fate: Fate, v: Uuid)
    requires Traced(s, v) && Conn(s, v) && m.Connect? && Untold(s, m.uuid)
    requires m.remote == ToAddress(Remote(s, s.owner[m.uuid]))
    ensures Traced(s.(down := Send(s.down, m, fate)), v)
  {
    var s' := s.(down := Send(s.down, m, fate));
    ConnectsSnoc(s.down.queue, m, v);
    TraceSnoc(s.down.log, m, v);
    if v == m.uuid {
      TellTracedNew(s, s', m);
    } else {
      TracedFrame(s, s', v);
    }
  }

  lemma TellTracedNew(s: State, s': State, m: Msg)
    requires m.Connect? && Untold(s, m.uuid) && Traced(s, m.uuid) && SamePeople(s, s')
    requires s'.srv == s.srv && s'.np == s.np && m.remote == ToAddress(Remote(s, s.owner[m.uuid]))
    requires Trace(s'.down.log, m.uuid) == [m] ||
             (Trace(s'.down.log, m.uuid) == [] && Connects(s'.down.queue, m.uuid) == Connects(s.down.queue, m.uuid))
    ensures Traced(s', m.uuid)
  {
    assert Wrap(m.uuid, []) == [];
  }

  lemma TellShakes(s: State, m: Msg, fate: Fate)
    requires Shakes(s) && m.Connect? && Untold(s, m.uuid)
    requires m.remote == ToAddress(Remote(s, s.owner[m.uuid]))
    ensures Shakes(s.(down := Send(s.down, m, fate)))
  {
    var s' := s.(down := Send(s.down, m, fate));
    DeskFrame(s, s');
    forall v ensures Conn(s', v) && Traced(s', v) {
      assert Conn(s, v) && Traced(s, v);
      TellConn(s, m, fate, v);
      TellTraced(s, m, fate, v);
    }
  }

  lemma TellKeeps(s: State, m: Msg, fate: Fate)
    requires Inv(s) && m.Connect? && Untold(s, m.uuid) && CanMeet(s.down, fate)
    requires m.remote == ToAddress(Remote(s, s.owner[m.uuid]))
    ensures Inv(s.(down := Send(s.down, m, fate)))
  {
    TellShakes(s, m, fate);
    DownSendEnds(s, m, fate);
    DownSendLanes(s, m, fate);
    assert Truthful(s, m) || s.down.broken;
    AnnouncePorts(s, m, fate);
  }

  function Told(s: State, l: nat, fate: Fate): State
    requires l < |s.listeners| && s.listeners[l].phase.Asking?
  {
    var u := s.listeners[l].phase.uuid;
    SetPhase(s, l, Waiting(u)).(down := Send(s.down, Connect(u, ToAddress(Remote(s, l))), fate))
  }

  lemma ToldKeeps(s: State, l: nat, fate: Fate)
    requires Inv(s) && CanDo(s, AskNp(l, fate))
    ensures Inv(Told(s, l, fate))
  {
    var u := s.listeners[l].phase.uuid;
    AskedUntold(s, l);
    PhaseKeeps(s, l, Waiting(u));
    TellKeeps(SetPhase(s, l, Waiting(u)), Connect(u, ToAddress(Remote(s, l))), fate);
  }

  lemma AskShape(s: State, l: nat, fate: Fate)
    requires l < |s.listeners| && s.listeners[l].phase.Asking?
    ensures var u, s2 := s.listeners[l].phase.uuid, Told(s, l, fate);
            if fate.Delivered? then DoAsk(s, l, fate) == s2
            else s2.down.broken && |s2.listeners| == |s.listeners| && s2.listeners[l].phase == Waiting(u)
                 && DoAsk(s, l, fate) == SetPhase(s2, l, Stopped(Some(u)))
  {
    var u, s2 := s.listeners[l].phase.uuid, Told(s, l, fate);
    if fate.Failed? {
      assert SetPhase(s2, l, Stopped(Some(u))).listeners == DoAsk(s, l, fate).listeners;
    }
  }

  lemma AskNpKeeps(s: State, l: nat, fate: Fate)
    requires Inv(s) && CanDo(s, AskNp(l, fate))
    ensures Inv(DoAsk(s, l, fate))
  {
    ToldKeeps(s, l, fate);
    AskShape(s, l, fate);
    if fate.Failed? {
      GiveUp(Told(s, l, fate), l);
    }
  }

  lemma GiveUp(s: State, l: nat)
    requires Inv(s) && l < |s.listeners| && s.listeners[l].phase.Waiting? && s.down.broken
    ensures Inv(SetPhase(s, l, Stopped(Some(s.listeners[l].phase.uuid))))
  {
    PhaseKeeps(s, l, Stopped(Some(s.listeners[l].phase.uuid)));
  }

  // ---------- the reply arrives

  function Answered(s: State, u: Uuid, ok: bool): State {
    s.(pending := s.pending - {u}, confirmed := if ok then s.confirmed + {u} else s.confirmed)
  }

  lemma AnsweredKeeps(s: State, u: Uuid, ok: bool)
    requires Inv(s)
    ensures Inv(Answered(s, u, ok))
  {
    var s' := Answered(s, u, ok);
    OnlyPeople(s, s');
    AnsweredShakes(s, s');
    DialsFrame(s, s');
    ForwardsFrame(s, s');
  }

  lemma AnsweredShakes(s: State, s': State)
    requires Shakes(s) && s'.pending <= s.pending && s' == s.(pending := s'.pending, confirmed := s'.confirmed)
    ensures Shakes(s')
  {
    DeskFrame(s, s');
    forall v ensures Conn(s', v) && Traced(s', v) {
      assert Conn(s, v) && Traced(s, v);
      ConnFrame(s, s', v);
      TracedFrame(s, s', v);
    }
  }

  lemma VouchedInHand(s: State, u: Uuid)
    requires Shakes(s) && Vouched(s, u)
    ensures u in s.np.tasks
  {
    assert Conn(s, u);
  }

  lemma HandleConnectedKeeps(s: State)
    requires Inv(s) && CanDo(s, HandleConnected)
    ensures Inv(DoConnected(s))
  {
    var Connected(u, ok) := s.srv.loop.msg;
    if u !in s.pending {
      ServerTurns(s, Dead);
    } else {
      if ok { VouchedInHand(s, u); }
      AnsweredKeeps(s, u, ok);
      var s1 := Answered(s, u, ok);
      if u in s.owner && s.owner[u] < |s.listeners| && s.listeners[s.owner[u]].phase == Waiting(u) {
        PhaseKeeps(s1, s.owner[u], Replied(u, ok));
        ServerTurns(SetPhase(s1, s.owner[u], Replied(u, ok)), Idle);
      } else {
        ServerTurns(s1, Idle);
      }
    }
  }

  // ---------- the server starts a task

  lemma StartServerShakes(s: State, u: Uuid)
    requires Shakes(s) && u in s.np.tasks && u !in s.srv.tasks
    requires forall l :: 0 <= l < |s.listeners| ==> Names(s.listeners[l].phase) != Some(u)
    ensures Shakes(s.(srv := Start(s.srv, u)))
  {
    var s' := s.(srv := Start(s.srv, u));
    forall v ensures Conn(s', v) && Traced(s', v) {
      assert Conn(s, v) && Traced(s, v);
      assert Vouched(s', v) == Vouched(s, v) && Asked(s', v) == Asked(s, v);
      assert Sent(s'.srv, v) == Sent(s.srv, v);
    }
  }

  lemma StartServerLanes(s: State, u: Uuid)
    requires InLanes(s) && TableOk(Server, s.srv) && u !in s.srv.tasks
    ensures InLanes(s.(srv := Start(s.srv, u)))
  {
    var s' := s.(srv := Start(s.srv, u));
    forall v ensures Lane(s'.srv, s'.down, s'.np, v) && Lane(s'.np, s'.up, s'.srv, v) {
      assert Lane(s.srv, s.down, s.np, v) && Lane(s.np, s.up, s.srv, v);
      SenderStarts(s.srv, s.down, s.np, u, v);
      ReceiverStarts(Server, s.np, s.up, s.srv, u, v);
    }
  }

  lemma StartServerEnds(s: State, u: Uuid)
    requires Ends(s) && u !in s.srv.tasks
    ensures Ends(s.(srv := Start(s.srv, u)))
  {
    StartKeepsTable(Server, s.srv, u);
    StartKeepsGood(s.srv, u);
  }

  lemma StartServerKeeps(s: State, u: Uuid)
    requires Inv(s) && u in s.np.tasks && u !in s.srv.tasks
    requires forall l :: 0 <= l < |s.listeners| ==> Names(s.listeners[l].phase) != Some(u)
    ensures Inv(s.(srv := Start(s.srv, u)))
  {
    var s' := s.(srv := Start(s.srv, u));
    StartServerShakes(s, u);
    StartServerLanes(s, u);
    StartServerEnds(s, u);
    DialsFrame(s, s');
    ForwardsFrame(s, s');
  }

  lemma RepliedOnce(s: State, l: nat)
    requires Shakes(s) && TableOk(Server, s.srv) && l < |s.listeners| && s.listeners[l].phase.Replied?
    ensures var Replied(u, ok) := s.listeners[l].phase;
            && u !in s.srv.tasks && u !in s.srv.chans && u !in s.pending && (ok ==> u in s.np.tasks)
            && (forall i :: 0 <= i < |s.listeners| && i != l ==> Names(s.listeners[i].phase) != Some(u))
  {
    var Replied(u, ok) := s.listeners[l].phase;
    assert Names(s.listeners[l].phase) == Some(u);
    if ok { VouchedInHand(s, u); }
  }

  lemma ResumeKeeps(s: State, l: nat)
    requires Inv(s) && CanDo(s, Resume(l))
    ensures Inv(DoResume(s, l))
  {
    var Replied(u, ok) := s.listeners[l].phase;
    RepliedOnce(s, l);
    PhaseKeeps(s, l, Accepting);
    if ok {
      StartServerKeeps(SetPhase(s, l, Accepting), u);
    }
  }

  // ---------- np learns of a port

  lemma SameKeySamePort(s: State, i: nat, j: nat)
    requires i < |s.listeners| && j < |s.listeners| && Key(s, i) == Key(s, j)
    ensures s.listeners[i].port == s.listeners[j].port
  {
    assert FromAddress(ToAddress(Remote(s, i))) == Remote(s, i);
    assert FromAddress(ToAddress(Remote(s, j))) == Remote(s, j);
    SameOrigin(Remote(s, i), Remote(s, j));
  }

  /** Among listeners np can hear of, the key tells the listener. */
  lemma KeyTellsListener(s: State, i: nat, j: nat)
    requires Dials(s) && i < |s.listeners| && j < |s.listeners| && Key(s, i) == Key(s, j)
    requires !s.listeners[i].mute && !s.listeners[j].mute
    ensures i == j
  {
    SameKeySamePort(s, i, j);
  }

  lemma LearnForwards(s: State, l: nat, forwardings': map<string, Addr>)
    requires Forwards(s) && Dials(s) && l < |s.listeners| && !s.listeners[l].mute
    requires forwardings' == if Key(s, l) in s.forwardings then s.forwardings else s.forwardings[Key(s, l) := s.listeners[l].local]
    ensures Forwards(s.(announced := s.announced + {l}, forwardings := forwardings'))
  {
    var s' := s.(announced := s.announced + {l}, forwardings := forwardings');
    if Key(s, l) in s.forwardings {
      var i :| Behind(s, Key(s, l), i);
      assert Forwarded(s, i);
      KeyTellsListener(s, i, l);
    }
    forall i | i in s'.announced ensures Forwarded(s', i) {
      assert i != l ==> Forwarded(s, i);
      SameKey(s, s', i);
    }
    forall k | k in s'.forwardings ensures exists i :: Behind(s', k, i) {
      if k in s.forwardings {
        var i :| Behind(s, k, i);
        SameKey(s, s', i);
        assert Behind(s', k, i);
      } else {
        SameKey(s, s', l);
        assert Behind(s', k, l);
      }
    }
  }

  lemma LearnShakes(s: State, s': State)
    requires Shakes(s) && s' == s.(announced := s'.announced, forwardings := s'.forwardings)
    ensures Shakes(s')
  {
    DeskFrame(s, s');
    forall v ensures Conn(s', v) && Traced(s', v) {
      assert Conn(s, v) && Traced(s, v);
      ConnFrame(s, s', v);
      TracedFrame(s, s', v);
    }
  }

  lemma LearnKeeps(s: State)
    requires Inv(s) && s.np.loop.Got? && s.np.loop.msg.Opened?
    ensures Inv(DoOpened(s).(np := s.np))
  {
    var s1 := DoOpened(s).(np := s.np);
    assert Truthful(s, s.np.loop.msg);
    LearnForwards(s, s.np.loop.msg.listener, s1.forwardings);
    LearnShakes(s, s1);
    OnlyPeople(s, s1);
    PeopleDials(s, s1);
  }

  lemma HandleOpenedKeeps(s: State)
    requires Inv(s) && CanDo(s, HandleOpened)
    ensures Inv(DoOpened(s))
  {
    if s.np.loop.msg.Opened? {
      LearnKeeps(s);
      NpTurns(DoOpened(s).(np := s.np), Idle);
    } else {
      NpTurns(s, Idle);
    }
  }

  // ---------- np handles a PortConnect

  /** If np knows the key, the entry is the local address behind the listener that
      accepted the connection. */
  lemma EntryIsMeant(s: State, u: Uuid, remote: Address)
    requires Dials(s) && Forwards(s) && Truthful(s, Connect(u, remote)) && PortOrigin(FromAddress(remote)) in s.forwardings
    ensures Meant(s, u, s.forwardings[PortOrigin(FromAddress(remote))])
  {
    var key := PortOrigin(FromAddress(remote));
    var l := s.owner[u];
    var i :| Behind(s, key, i);
    assert Forwarded(s, i) && key == Key(s, l);
    KeyTellsListener(s, i, l);
  }

  lemma HandleConnectKeeps(s: State)
    requires Inv(s) && CanDo(s, HandleConnect)
    ensures Inv(DoConnect(s))
  {
    var Connect(u, remote) := s.np.loop.msg;
    var key := PortOrigin(FromAddress(remote));
    assert Truthful(s, Connect(u, remote));
    if key in s.forwardings {
      EntryIsMeant(s, u, remote);
      NpTurns(s, Dialling(u, s.forwardings[key]));
    } else {
      NpTurns(s, Answering(Connected(u, false)));
    }
  }

  lemma StartNpShakes(s: State, u: Uuid)
    requires Shakes(s) && u !in s.np.tasks && Tokens(s, u) == 0 && u in s.owner && Trace(s.down.log, u) != []
    ensures Shakes(s.(np := Start(s.np, u)))
  {
    var s' := s.(np := Start(s.np, u));
    forall v ensures Conn(s', v) && Traced(s', v) {
      assert Conn(s, v) && Traced(s, v);
      assert Vouched(s', v) == Vouched(s, v) && Asked(s', v) == Asked(s, v);
      assert InHand(s'.np, v) == InHand(s.np, v);
    }
  }

  lemma StartNpLanes(s: State, u: Uuid)
    requires InLanes(s) && TableOk(Np, s.np) && u !in s.np.tasks
    ensures InLanes(s.(np := Start(s.np, u)))
  {
    var s' := s.(np := Start(s.np, u));
    forall v ensures Lane(s'.srv, s'.down, s'.np, v) && Lane(s'.np, s'.up, s'.srv, v) {
      assert Lane(s.srv, s.down, s.np, v) && Lane(s.np, s.up, s.srv, v);
      SenderStarts(s.np, s.up, s.srv, u, v);
      ReceiverStarts(Np, s.srv, s.down, s.np, u, v);
    }
  }

  lemma StartNpPorts(s: State, u: Uuid, target: Addr)
    requires Dials(s) && Forwards(s) && Meant(s, u, target)
    ensures var s' := s.(np := Start(s.np, u), dialled := s.dialled[u := target]); Dials(s') && Forwards(s')
  {
    var s' := s.(np := Start(s.np, u), dialled := s.dialled[u := target]);
    ForwardsFrame(s, s');
    assert forall m :: Truthful(s, m) ==> Truthful(s', m);
  }

  lemma StartNpEnds(s: State, u: Uuid)
    requires Ends(s) && u !in s.np.tasks
    ensures Ends(s.(np := Start(s.np, u)))
  {
    StartKeepsTable(Np, s.np, u);
    StartKeepsGood(s.np, u);
  }

  lemma StartNpKeeps(s: State, u: Uuid, target: Addr)
    requires Inv(s) && u !in s.np.tasks && Tokens(s, u) == 0 && Trace(s.down.log, u) != [] && Meant(s, u, target)
    ensures Inv(s.(np := Start(s.np, u), dialled := s.dialled[u := target]))
  {
    var s1 := s.(np := Start(s.np, u));
    var s' := s1.(dialled := s.dialled[u := target]);
    StartNpShakes(s, u);
    StartNpLanes(s, u);
    StartNpEnds(s, u);
    StartNpPorts(s, u, target);
    OnlyPeople(s1, s');
    DialledShakes(s1, s');
  }

  lemma DialledShakes(s: State, s': State)
    requires Shakes(s) && s' == s.(dialled := s'.dialled)
    ensures Shakes(s')
  {
    DeskFrame(s, s');
    forall v ensures Conn(s', v) && Traced(s', v) {
      assert Conn(s, v) && Traced(s, v);
      ConnFrame(s, s', v);
      TracedFrame(s, s', v);
    }
  }

  lemma DiallingAlone(s: State)
    requires Shakes(s) && TableOk(Np, s.np) && s.np.loop.Dialling?
    ensures var u := s.np.loop.uuid;
            && u !in s.np.tasks && u !in s.np.chans && Trace(s.down.log, u) != []
            && Tokens(s.(np := s.np.(loop := Idle)), u) == 0
  {
    var u := s.np.loop.uuid;
    assert Conn(s, u) && Traced(s, u);
  }

  lemma DialKeeps(s: State, ok: bool)
    requires Inv(s) && CanDo(s, Dial(ok))
    ensures Inv(DoDial(s, ok))
  {
    var Dialling(u, target) := s.np.loop;
    DiallingAlone(s);
    if ok {
      NpTurns(s, Idle);
      var s1 := s.(np := s.np.(loop := Idle));
      StartNpKeeps(s1, u, target);
      NpTurns(s1.(np := Start(s1.np, u), dialled := s.dialled[u := target]), Answering(Connected(u, true)));
    } else {
      NpTurns(s, Answering(Connected(u, false)));
    }
  }

  // ---------- all steps, all runs

  lemma ListenerStepKeeps(s: State, a: Action)
    requires Inv(s) && CanDo(s, a)
    requires a.Bind? || a.Announce? || a.Accept? || a.AskNp? || a.HandleConnected? || a.Resume? || a.StopListener?
    ensures Inv(Do(s, a))
  {
    match a
    case Bind(port) => BindKeeps(s, port);
    case Announce(fate) => AnnounceKeeps(s, fate);
    case Accept(l, u) => AcceptKeeps(s, l, u);
    case AskNp(l, fate) => AskNpKeeps(s, l, fate);
    case HandleConnected => HandleConnectedKeeps(s);
    case Resume(l) => ResumeKeeps(s, l);
    case StopListener(l) => StopListenerKeeps(s, l);
  }

  lemma NpStepKeeps(s: State, a: Action)
    requires Inv(s) && CanDo(s, a)
    requires a.RequestPort? || a.HandleOpened? || a.HandleConnect? || a.Dial? || a.Reply?
    ensures Inv(Do(s, a))
  {
    match a
    case RequestPort(local, fate) => RequestPortKeeps(s, local, fate);
    case HandleOpened => HandleOpenedKeeps(s);
    case HandleConnect => HandleConnectKeeps(s);
    case Dial(ok) => DialKeeps(s, ok);
    case Reply(fate) => ReplyKeeps(s, fate);
  }

  lemma StepKeeps(s: State, a: Action)
    requires Inv(s) && CanDo(s, a)
    ensures Inv(Do(s, a))
  {
    match a
    case ServerTask(u, ev) => ServerTaskKeeps(s, u, ev);
    case NpTask(u, ev) => NpTaskKeeps(s, u, ev);
    case ReceiveMsg(side) => ReceiveKeeps(s, side);
    case DispatchMsg(side) => DispatchKeeps(s, side);
    case PushMsg(side) => PushKeeps(s, side);
    case LoopFails(side) => LoopFailsKeeps(s, side);
    case Release(side) => ReleaseKeeps(s, side);
    case RequestPort(_, _) | HandleOpened | HandleConnect | Dial(_) | Reply(_) => NpStepKeeps(s, a);
    case _ => ListenerStepKeeps(s, a);
  }

  lemma {:induction false} RunKeeps(s: State, acts: seq<Action>)
    requires Inv(s) && Legal(s, acts)
    ensures Inv(After(s, acts))
    decreases |acts|
  {
    if acts != [] {
      StepKeeps(s, acts[0]);
      RunKeeps(Do(s, acts[0]), acts[1..]);
    }
  }

  lemma ReachableInv(s: State)
    requires Reachable(s)
    ensures Inv(s)
  {
    var host, acts :| Legal(Init(host), acts) && After(Init(host), acts) == s;
    InitInv(host);
    RunKeeps(Init(host), acts);
  }
}
