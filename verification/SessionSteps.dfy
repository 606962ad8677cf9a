/** Every step of a session keeps the invariant. A step is a short sequence of primitive
    changes; each of those keeps it. */
module SessionSteps {
  import opened Addresses
  import opened PortTask
  import opened Session
  import opened Lanes
  import opened SessionInv

  // ---------- what each part of the invariant depends on

  predicate SamePeople(s: State, s': State) {
    s'.host == s.host && s'.owner == s.owner && s'.listeners == s.listeners
  }

  lemma DeskFrame(s: State, s': State)
    requires Desk(s) && SamePeople(s, s') && s'.pending <= s.pending
    requires s'.srv.tasks.Keys <= s.srv.tasks.Keys
    requires (s.down.broken ==> s'.down.broken) && (s.srv.released ==> s'.srv.released)
    requires s'.srv.released ==> s'.srv.loop.Dead?
    ensures Desk(s')
  {
  }

  lemma ConnFrame(s: State, s': State, u: Uuid)
    requires Conn(s, u) && s'.owner.Keys == s.owner.Keys
    requires s'.srv.tasks.Keys == s.srv.tasks.Keys && s'.np.tasks.Keys == s.np.tasks.Keys
    requires Tokens(s', u) <= Tokens(s, u) && (Vouched(s', u) ==> u in s.np.tasks)
    ensures Conn(s', u)
  {
    assert u in s'.owner <==> u in s'.owner.Keys;
    assert u in s'.srv.tasks <==> u in s'.srv.tasks.Keys;
    assert u in s'.np.tasks <==> u in s'.np.tasks.Keys;
  }

  lemma TracedFrame(s: State, s': State, u: Uuid)
    requires Traced(s, u) && SamePeople(s, s')
    requires Trace(s'.down.log, u) == Trace(s.down.log, u) && Sent(s'.srv, u) == Sent(s.srv, u)
    requires Connects(s'.down.queue, u) > 0 || InHand(s'.np, u) ==> Connects(s.down.queue, u) > 0 || InHand(s.np, u)
    requires u in s'.np.tasks ==> u in s.np.tasks
    ensures Traced(s', u)
  {
  }

  lemma DialsFrame(s: State, s': State)
    requires Dials(s) && SamePeople(s, s') && s'.dialled == s.dialled
    requires s'.np.tasks.Keys <= s.np.tasks.Keys && (s.down.broken ==> s'.down.broken)
    requires forall m :: m in s'.down.queue ==> m in s.down.queue || Truthful(s, m)
    requires s'.np.loop.Got? ==> Truthful(s, s'.np.loop.msg)
    requires s'.np.loop.Dialling? ==> Meant(s, s'.np.loop.uuid, s'.np.loop.target)
    requires s'.np.loop.Answering? ==> s'.np.loop.answer.Connected?
    requires s'.srv.loop.Answering? ==> AnswerOk(s, s'.srv.loop.answer)
    ensures Dials(s')
  {
  }

  /** Listeners keep their ports; some may be added. */
  predicate SamePorts(s: State, s': State) {
    && s'.host == s.host && |s.listeners| <= |s'.listeners|
    && forall l :: 0 <= l < |s.listeners| ==>
         s'.listeners[l].port == s.listeners[l].port && s'.listeners[l].local == s.listeners[l].local
         && s'.listeners[l].mute == s.listeners[l].mute
  }

  lemma ForwardsFrame(s: State, s': State)
    requires Forwards(s) && SamePorts(s, s') && s'.announced == s.announced && s'.forwardings == s.forwardings
    ensures Forwards(s')
  {
    forall l | l in s'.announced ensures Forwarded(s', l) {
      assert Forwarded(s, l);
      SameKey(s, s', l);
    }
    forall k | k in s'.forwardings ensures exists l :: Behind(s', k, l) {
      var l :| Behind(s, k, l);
      SameKey(s, s', l);
      assert Behind(s', k, l);
    }
  }

  lemma SameKey(s: State, s': State, l: nat)
    requires SamePorts(s, s') && l < |s.listeners|
    ensures Key(s', l) == Key(s, l)
  {
  }

  // ---------- the tasks

  lemma ServerTaskEnds(s: State, v: Uuid, ev: Event)
    requires Ends(s) && CanDo(s, ServerTask(v, ev))
    ensures Ends(Do(s, ServerTask(v, ev)))
  {
    TaskKeepsTable(Server, s.srv, s.down, v, ev);
    TaskKeepsGood(Server, s.srv, s.down, v, ev);
    TaskKeepsCutOff(Server, s.srv, s.down, v, ev);
  }

  lemma ServerTaskLanes(s: State, v: Uuid, ev: Event)
    requires InLanes(s) && TableOk(Server, s.srv) && CanDo(s, ServerTask(v, ev))
    ensures InLanes(Do(s, ServerTask(v, ev)))
  {
    var s' := Do(s, ServerTask(v, ev));
    forall u ensures Lane(s'.srv, s'.down, s'.np, u) && Lane(s'.np, s'.up, s'.srv, u) {
      SenderStep(Server, s.srv, s.down, s.np, v, ev, u);
      ReceiverStep(Server, s.np, s.up, s.srv, s.down, v, ev, u);
    }
  }

  /** What a task step puts on the wire: nothing, or one port message. */
  lemma TaskWireOutline(e: End, out: Wire, v: Uuid, ev: Event, u: Uuid)
    requires v in e.tasks && Enabled(e.tasks[v], ev)
    ensures var out' := TaskWire(e, out, v, ev);
            var x := if ev.SendOk? || (ev.SendError? && ev.reached) then [Port(v, e.tasks[v].phase.msg)] else [];
            && out'.queue == out.queue + x && out'.log == out.log + x && (out.broken ==> out'.broken)
            && Connects(out'.queue, u) == Connects(out.queue, u)
            && Trace(out'.log, u) == Trace(out.log, u) + (if u == v then x else [])
  {
    if ev.SendOk? || (ev.SendError? && ev.reached) {
      ConnectsSnoc(out.queue, Port(v, e.tasks[v].phase.msg), u);
      TraceSnoc(out.log, Port(v, e.tasks[v].phase.msg), u);
    }
  }

  lemma ServerTaskShakes(s: State, v: Uuid, ev: Event)
    requires Shakes(s) && CanDo(s, ServerTask(v, ev))
    ensures Shakes(Do(s, ServerTask(v, ev)))
  {
    var s' := Do(s, ServerTask(v, ev));
    assert s'.srv.tasks.Keys == s.srv.tasks.Keys;
    TaskWireOutline(s.srv, s.down, v, ev, v);
    DeskFrame(s, s');
    forall u ensures Conn(s', u) && Traced(s', u) {
      assert Conn(s, u) && Traced(s, u);
      ServerTaskConn(s, v, ev, u);
      ServerTaskTraced(s, v, ev, u);
    }
  }

  lemma ServerTaskConn(s: State, v: Uuid, ev: Event, u: Uuid)
    requires Conn(s, u) && CanDo(s, ServerTask(v, ev))
    ensures Conn(Do(s, ServerTask(v, ev)), u)
  {
    TaskWireOutline(s.srv, s.down, v, ev, u);
    ConnFrame(s, Do(s, ServerTask(v, ev)), u);
  }

  lemma ServerTaskTraced(s: State, v: Uuid, ev: Event, u: Uuid)
    requires Conn(s, u) && Traced(s, u) && CanDo(s, ServerTask(v, ev))
    ensures Traced(Do(s, ServerTask(v, ev)), u)
  {
    var s' := Do(s, ServerTask(v, ev));
    TaskWireOutline(s.srv, s.down, v, ev, u);
    ServerTaskSent(s, v, ev, u);
    if u == v && (ev.SendOk? || (ev.SendError? && ev.reached)) {
      TracedGrows(s, s', u, s.srv.tasks[v].phase.msg);
    } else {
      TracedFrame(s, s', u);
    }
  }

  lemma ServerTaskSent(s: State, v: Uuid, ev: Event, u: Uuid)
    requires CanDo(s, ServerTask(v, ev))
    ensures var sends := u == v && (ev.SendOk? || (ev.SendError? && ev.reached));
            Sent(TaskEnd(Server, s.srv, v, ev), u) == Sent(s.srv, u) + if sends then [s.srv.tasks[v].phase.msg] else []
  {
    StepOutline(Server, s.srv.tasks[v], ev);
  }

  lemma TracedGrows(s: State, s': State, u: Uuid, m: PortMessage)
    requires Traced(s, u) && Conn(s, u) && SamePeople(s, s') && u in s.srv.tasks && u in s'.srv.tasks
    requires Trace(s'.down.log, u) == Trace(s.down.log, u) + [Port(u, m)] && s'.np == s.np
    requires Sent(s'.srv, u) == Sent(s.srv, u) + [m]
    requires !Asked(s, u)
    ensures Traced(s', u)
  {
    WrapSnoc(u, Sent(s.srv, u), m);
  }

  lemma ServerTaskPorts(s: State, v: Uuid, ev: Event)
    requires Dials(s) && Forwards(s) && CanDo(s, ServerTask(v, ev))
    ensures var s' := Do(s, ServerTask(v, ev)); Dials(s') && Forwards(s')
  {
    ServerTaskDials(s, v, ev);
    ForwardsFrame(s, Do(s, ServerTask(v, ev)));
  }

  lemma ServerTaskDials(s: State, v: Uuid, ev: Event)
    requires Dials(s) && CanDo(s, ServerTask(v, ev))
    ensures Dials(Do(s, ServerTask(v, ev)))
  {
    var s' := Do(s, ServerTask(v, ev));
    ServerTaskSends(s, v, ev);
    forall m | m in s'.down.queue ensures m in s.down.queue || Truthful(s, m) {
    }
    DialsFrame(s, s');
  }

  /** A task puts port messages on the wire, none of which is about dialling. */
  lemma ServerTaskSends(s: State, v: Uuid, ev: Event)
    requires CanDo(s, ServerTask(v, ev))
    ensures var s' := Do(s, ServerTask(v, ev));
            && SamePeople(s, s') && s'.np == s.np && s'.dialled == s.dialled && s'.srv.loop == s.srv.loop
            && (s.down.broken ==> s'.down.broken)
            && forall m :: m in s'.down.queue ==> m in s.down.queue || m.Port?
  {
    TaskWireOutline(s.srv, s.down, v, ev, v);
  }

  lemma ServerTaskKeeps(s: State, v: Uuid, ev: Event)
    requires Inv(s) && CanDo(s, ServerTask(v, ev))
    ensures Inv(Do(s, ServerTask(v, ev)))
  {
    ServerTaskEnds(s, v, ev);
    ServerTaskLanes(s, v, ev);
    ServerTaskShakes(s, v, ev);
    ServerTaskPorts(s, v, ev);
  }

  lemma NpTaskEnds(s: State, v: Uuid, ev: Event)
    requires Ends(s) && CanDo(s, NpTask(v, ev))
    ensures Ends(Do(s, NpTask(v, ev)))
  {
    TaskKeepsTable(Np, s.np, s.up, v, ev);
    TaskKeepsGood(Np, s.np, s.up, v, ev);
    TaskKeepsCutOff(Np, s.np, s.up, v, ev);
  }

  lemma NpTaskLanes(s: State, v: Uuid, ev: Event)
    requires InLanes(s) && TableOk(Np, s.np) && CanDo(s, NpTask(v, ev))
    ensures InLanes(Do(s, NpTask(v, ev)))
  {
    var s' := Do(s, NpTask(v, ev));
    forall u ensures Lane(s'.srv, s'.down, s'.np, u) && Lane(s'.np, s'.up, s'.srv, u) {
      SenderStep(Np, s.np, s.up, s.srv, v, ev, u);
      ReceiverStep(Np, s.srv, s.down, s.np, s.up, v, ev, u);
    }
  }

  lemma NpTaskShakes(s: State, v: Uuid, ev: Event)
    requires Shakes(s) && CanDo(s, NpTask(v, ev))
    ensures Shakes(Do(s, NpTask(v, ev)))
  {
    var s' := Do(s, NpTask(v, ev));
    assert s'.np.tasks.Keys == s.np.tasks.Keys;
    TaskWireOutline(s.np, s.up, v, ev, v);
    DeskFrame(s, s');
    forall u ensures Conn(s', u) && Traced(s', u) {
      assert Conn(s, u) && Traced(s, u);
      assert Vouched(s', u) ==> Vouched(s, u);
      ConnFrame(s, s', u);
      TracedFrame(s, s', u);
    }
  }

  lemma NpTaskPorts(s: State, v: Uuid, ev: Event)
    requires Dials(s) && Forwards(s) && CanDo(s, NpTask(v, ev))
    ensures var s' := Do(s, NpTask(v, ev)); Dials(s') && Forwards(s')
  {
    var s' := Do(s, NpTask(v, ev));
    assert s'.np.tasks.Keys == s.np.tasks.Keys;
    DialsFrame(s, s');
    ForwardsFrame(s, s');
  }

  lemma NpTaskKeeps(s: State, v: Uuid, ev: Event)
    requires Inv(s) && CanDo(s, NpTask(v, ev))
    ensures Inv(Do(s, NpTask(v, ev)))
  {
    NpTaskEnds(s, v, ev);
    NpTaskLanes(s, v, ev);
    NpTaskShakes(s, v, ev);
    NpTaskPorts(s, v, ev);
  }

  // ---------- the receive loops come to rest, end or block

  predicate AtRest(e: End, e': End) {
    && e'.tasks == e.tasks && (e.released ==> e'.released) && (e'.released ==> e'.loop.Dead?)
    && (e'.loop.Idle? || e'.loop.Dead? || e'.loop.Blocked?)
  }

  lemma ServerRests(s: State, e': End)
    requires Shakes(s) && Dials(s) && Forwards(s) && AtRest(s.srv, e')
    ensures var s' := s.(srv := e'); Shakes(s') && Dials(s') && Forwards(s')
  {
    var s' := s.(srv := e');
    DeskFrame(s, s');
    forall u ensures Conn(s', u) && Traced(s', u) {
      assert Conn(s, u) && Traced(s, u);
      ConnFrame(s, s', u);
      TracedFrame(s, s', u);
    }
    DialsFrame(s, s');
    ForwardsFrame(s, s');
  }

  lemma NpRests(s: State, e': End)
    requires Shakes(s) && Dials(s) && Forwards(s) && AtRest(s.np, e')
    ensures var s' := s.(np := e'); Shakes(s') && Dials(s') && Forwards(s')
  {
    var s' := s.(np := e');
    DeskFrame(s, s');
    forall u ensures Conn(s', u) && Traced(s', u) {
      assert Conn(s, u) && Traced(s, u);
      ConnFrame(s, s', u);
      TracedFrame(s, s', u);
    }
    DialsFrame(s, s');
    ForwardsFrame(s, s');
  }

  function Peer(s: State, side: Side): End {
    if side.Server? then s.np else s.srv
  }

  function Inward(s: State, side: Side): Wire {
    if side.Server? then s.up else s.down
  }

  ghost predicate LanesInto(s: State, side: Side, e: End) {
    forall u :: Lane(Peer(s, side), Inward(s, side), e, u)
  }

  lemma SwapLanes(s: State, side: Side, e': End)
    requires InLanes(s) && e'.tasks == EndOf(s, side).tasks && LanesInto(s, side, e')
    ensures InLanes(WithEnd(s, side, e'))
  {
    var s' := WithEnd(s, side, e');
    forall u ensures Lane(s'.srv, s'.down, s'.np, u) && Lane(s'.np, s'.up, s'.srv, u) {
      assert Lane(s.srv, s.down, s.np, u) && Lane(s.np, s.up, s.srv, u);
      assert Lane(Peer(s, side), Inward(s, side), e', u);
    }
  }

  lemma RestEnds(s: State, side: Side, e': End)
    requires Ends(s) && AtRest(EndOf(s, side), e') && TableOk(side, e')
    ensures Ends(WithEnd(s, side, e'))
  {
  }

  lemma RestKeeps(s: State, side: Side, e': End)
    requires Inv(s) && AtRest(EndOf(s, side), e') && TableOk(side, e') && LanesInto(s, side, e')
    ensures Inv(WithEnd(s, side, e'))
  {
    RestEnds(s, side, e');
    SwapLanes(s, side, e');
    if side.Server? { ServerRests(s, e'); } else { NpRests(s, e'); }
  }

  ghost predicate NpFirst(s: State) {
    forall u :: u in s.srv.tasks ==> u in s.np.tasks
  }

  lemma ShakesNpFirst(s: State)
    requires Shakes(s)
    ensures NpFirst(s)
  {
    forall u | u in s.srv.tasks ensures u in s.np.tasks {
      assert Conn(s, u);
    }
  }

  lemma IntoFrom(s: State, side: Side)
    requires InLanes(s)
    ensures LanesInto(s, side, EndOf(s, side))
  {
    forall u ensures Lane(Peer(s, side), Inward(s, side), EndOf(s, side), u) {
      assert Lane(s.srv, s.down, s.np, u) && Lane(s.np, s.up, s.srv, u);
    }
  }

  lemma DispatchLanes(s: State, side: Side)
    requires LanesInto(s, side, EndOf(s, side)) && TableOk(side, EndOf(s, side)) && NpFirst(s) && CanDo(s, DispatchMsg(side))
    ensures LanesInto(s, side, Dispatch(side, EndOf(s, side)))
  {
    forall u ensures Lane(Peer(s, side), Inward(s, side), Dispatch(side, EndOf(s, side)), u) {
      DispatchStep(side, Peer(s, side), Inward(s, side), EndOf(s, side), u);
    }
  }

  lemma DispatchKeeps(s: State, side: Side)
    requires Inv(s) && CanDo(s, DispatchMsg(side))
    ensures Inv(Do(s, DispatchMsg(side)))
  {
    ShakesNpFirst(s);
    IntoFrom(s, side);
    DispatchLanes(s, side);
    DispatchKeepsTable(side, EndOf(s, side));
    RestKeeps(s, side, Dispatch(side, EndOf(s, side)));
  }

  lemma PushLanes(s: State, side: Side)
    requires LanesInto(s, side, EndOf(s, side)) && TableOk(side, EndOf(s, side)) && CanDo(s, PushMsg(side))
    ensures LanesInto(s, side, Push(EndOf(s, side)))
  {
    forall u ensures Lane(Peer(s, side), Inward(s, side), Push(EndOf(s, side)), u) {
      PushStep(side, Peer(s, side), Inward(s, side), EndOf(s, side), u);
    }
  }

  lemma PushKeeps(s: State, side: Side)
    requires Inv(s) && CanDo(s, PushMsg(side))
    ensures Inv(Do(s, PushMsg(side)))
  {
    IntoFrom(s, side);
    PushLanes(s, side);
    PushKeepsTable(side, EndOf(s, side));
    RestKeeps(s, side, Push(EndOf(s, side)));
  }

  lemma OverLanes(s: State, side: Side, e': End)
    requires LanesInto(s, side, EndOf(s, side))
    requires e'.tasks == EndOf(s, side).tasks && e'.chans == EndOf(s, side).chans && e'.loop.Dead?
    requires EndOf(s, side).loop.Idle? || EndOf(s, side).loop.Dead?
    ensures LanesInto(s, side, e')
  {
    forall u ensures Lane(Peer(s, side), Inward(s, side), e', u) {
      var e := EndOf(s, side);
      assert Lane(Peer(s, side), Inward(s, side), e, u);
      var before, after := View(Peer(s, side), Inward(s, side), e, u), View(Peer(s, side), Inward(s, side), e', u);
      assert after == before.(open := false);
    }
  }

  lemma LoopFailsKeeps(s: State, side: Side)
    requires Inv(s) && CanDo(s, LoopFails(side))
    ensures Inv(Do(s, LoopFails(side)))
  {
    var e' := EndOf(s, side).(loop := Dead);
    IntoFrom(s, side);
    OverLanes(s, side, e');
    RestKeeps(s, side, e');
  }

  lemma ReleaseKeeps(s: State, side: Side)
    requires Inv(s) && CanDo(s, Release(side))
    ensures Inv(Do(s, Release(side)))
  {
    var e' := EndOf(s, side).(released := true);
    IntoFrom(s, side);
    OverLanes(s, side, e');
    RestKeeps(s, side, e');
  }

  // ---------- np's control messages

  lemma UpSendEnds(s: State, m: Msg, fate: Fate)
    requires Ends(s)
    ensures Ends(s.(up := Send(s.up, m, fate)))
  {
  }

  lemma UpSendLanes(s: State, m: Msg, fate: Fate)
    requires InLanes(s) && !m.Port?
    ensures InLanes(s.(up := Send(s.up, m, fate)))
  {
    var s' := s.(up := Send(s.up, m, fate));
    forall u ensures Lane(s'.srv, s'.down, s'.np, u) && Lane(s'.np, s'.up, s'.srv, u) {
      assert Lane(s.srv, s.down, s.np, u);
      SendStep(s.np, s.up, s.srv, m, fate, u);
    }
  }

  lemma UpSendShakes(s: State, m: Msg, fate: Fate)
    requires Shakes(s)
    requires m.Connected? && m.ok ==> m.uuid in s.np.tasks
    ensures Shakes(s.(up := Send(s.up, m, fate)))
  {
    var s' := s.(up := Send(s.up, m, fate));
    DeskFrame(s, s');
    forall u ensures Conn(s', u) && Traced(s', u) {
      assert Conn(s, u) && Traced(s, u);
      assert Vouched(s', u) ==> Vouched(s, u) || m == Connected(u, true);
      ConnFrame(s, s', u);
      TracedFrame(s, s', u);
    }
  }

  lemma UpSendPorts(s: State, m: Msg, fate: Fate)
    requires Dials(s) && Forwards(s)
    ensures var s' := s.(up := Send(s.up, m, fate)); Dials(s') && Forwards(s')
  {
    var s' := s.(up := Send(s.up, m, fate));
    DialsFrame(s, s');
    ForwardsFrame(s, s');
  }

  lemma RequestPortKeeps(s: State, local: Addr, fate: Fate)
    requires Inv(s) && CanDo(s, RequestPort(local, fate))
    ensures Inv(Do(s, RequestPort(local, fate)))
  {
    UpSendEnds(s, Open(local), fate);
    UpSendLanes(s, Open(local), fate);
    UpSendShakes(s, Open(local), fate);
    UpSendPorts(s, Open(local), fate);
  }

  lemma ReplyVouched(s: State)
    requires Shakes(s) && s.np.loop.Answering?
    ensures s.np.loop.answer.Connected? && s.np.loop.answer.ok ==> s.np.loop.answer.uuid in s.np.tasks
  {
    if s.np.loop.answer.Connected? {
      assert Conn(s, s.np.loop.answer.uuid);
    }
  }

  /** A loop with no port message in hand moves on. */
  lemma EmptyHandLanes(s: State, side: Side, loop: Loop)
    requires LanesInto(s, side, EndOf(s, side)) && !EndOf(s, side).loop.Dead?
    requires forall u :: Hand(EndOf(s, side), u) == []
    requires !loop.Got? && !loop.Blocked?
    ensures LanesInto(s, side, EndOf(s, side).(loop := loop))
  {
    forall u ensures Lane(Peer(s, side), Inward(s, side), EndOf(s, side).(loop := loop), u) {
      assert Lane(Peer(s, side), Inward(s, side), EndOf(s, side), u);
      LoopStep(Peer(s, side), Inward(s, side), EndOf(s, side), loop, u);
    }
  }

  lemma ReplyKeeps(s: State, fate: Fate)
    requires Inv(s) && CanDo(s, Reply(fate))
    ensures Inv(Do(s, Reply(fate)))
  {
    var m := s.np.loop.answer;
    ReplyVouched(s);
    UpSendEnds(s, m, fate);
    UpSendLanes(s, m, fate);
    UpSendShakes(s, m, fate);
    UpSendPorts(s, m, fate);
    var s1 := s.(up := Send(s.up, m, fate));
    IntoFrom(s1, Np);
    EmptyHandLanes(s1, Np, Idle);
    RestKeeps(s1, Np, s1.np.(loop := Idle));
  }

  // ---------- the server's control messages, other than PortConnect

  lemma DownSendEnds(s: State, m: Msg, fate: Fate)
    requires Ends(s)
    ensures Ends(s.(down := Send(s.down, m, fate)))
  {
  }

  lemma DownSendLanes(s: State, m: Msg, fate: Fate)
    requires InLanes(s) && !m.Port?
    ensures InLanes(s.(down := Send(s.down, m, fate)))
  {
    var s' := s.(down := Send(s.down, m, fate));
    forall u ensures Lane(s'.srv, s'.down, s'.np, u) && Lane(s'.np, s'.up, s'.srv, u) {
      assert Lane(s.np, s.up, s.srv, u);
      SendStep(s.srv, s.down, s.np, m, fate, u);
    }
  }

  lemma AnnounceShakes(s: State, m: Msg, fate: Fate)
    requires Shakes(s) && (m.Opened? || m.Refused?)
    ensures Shakes(s.(down := Send(s.down, m, fate)))
  {
    var s' := s.(down := Send(s.down, m, fate));
    DeskFrame(s, s');
    forall u ensures Conn(s', u) && Traced(s', u) {
      assert Conn(s, u) && Traced(s, u);
      AnnounceShake(s, m, fate, u);
    }
  }

  lemma AnnounceShake(s: State, m: Msg, fate: Fate, u: Uuid)
    requires Conn(s, u) && Traced(s, u) && (m.Opened? || m.Refused?)
    ensures var s' := s.(down := Send(s.down, m, fate)); Conn(s', u) && Traced(s', u)
  {
    var s' := s.(down := Send(s.down, m, fate));
    AnnounceWire(s.down, m, fate, u);
    ConnFrame(s, s', u);
    TracedFrame(s, s', u);
  }

  lemma AnnounceWire(w: Wire, m: Msg, fate: Fate, u: Uuid)
    requires m.Opened? || m.Refused?
    ensures Connects(Send(w, m, fate).queue, u) == Connects(w.queue, u)
    ensures Trace(Send(w, m, fate).log, u) == Trace(w.log, u)
  {
    ConnectsSnoc(w.queue, m, u);
    TraceSnoc(w.log, m, u);
  }

  lemma AnnouncePorts(s: State, m: Msg, fate: Fate)
    requires Dials(s) && Forwards(s) && CanMeet(s.down, fate)
    requires Truthful(s, m) || s.down.broken
    ensures var s' := s.(down := Send(s.down, m, fate)); Dials(s') && Forwards(s')
  {
    var s' := s.(down := Send(s.down, m, fate));
    DialsFrame(s, s');
    ForwardsFrame(s, s');
  }

  lemma AnnounceKeeps(s: State, fate: Fate)
    requires Inv(s) && CanDo(s, Announce(fate))
    ensures Inv(Do(s, Announce(fate)))
  {
    var m := s.srv.loop.answer;
    assert AnswerOk(s, m);
    DownSendEnds(s, m, fate);
    DownSendLanes(s, m, fate);
    AnnounceShakes(s, m, fate);
    AnnouncePorts(s, m, fate);
    var s1 := s.(down := Send(s.down, m, fate));
    var loop := if fate.Delivered? then Idle else Dead;
    IntoFrom(s1, Server);
    EmptyHandLanes(s1, Server, loop);
    RestKeeps(s1, Server, s1.srv.(loop := loop));
  }

  // ---------- receiving

  lemma ReceiveLanes(s: State, side: Side)
    requires InLanes(s) && CanDo(s, ReceiveMsg(side))
    ensures InLanes(Do(s, ReceiveMsg(side)))
  {
    var s' := Do(s, ReceiveMsg(side));
    forall u ensures Lane(s'.srv, s'.down, s'.np, u) && Lane(s'.np, s'.up, s'.srv, u) {
      assert Lane(s.srv, s.down, s.np, u) && Lane(s.np, s.up, s.srv, u);
      ReceiveStep(Peer(s, side), Inward(s, side), EndOf(s, side), u);
    }
  }

  lemma ReceiveShakes(s: State, side: Side)
    requires Shakes(s) && CanDo(s, ReceiveMsg(side)) && !EndOf(s, side).released
    ensures Shakes(Do(s, ReceiveMsg(side)))
  {
    var s' := Do(s, ReceiveMsg(side));
    DeskFrame(s, s');
    forall u ensures Conn(s', u) && Traced(s', u) {
      assert Conn(s, u) && Traced(s, u);
      assert Vouched(s', u) ==> Vouched(s, u);
      ConnFrame(s, s', u);
      TracedFrame(s, s', u);
    }
  }

  lemma ReceivePorts(s: State, side: Side)
    requires Dials(s) && Forwards(s) && CanDo(s, ReceiveMsg(side))
    ensures var s' := Do(s, ReceiveMsg(side)); Dials(s') && Forwards(s')
  {
    var s' := Do(s, ReceiveMsg(side));
    DialsFrame(s, s');
    ForwardsFrame(s, s');
  }

  lemma ReceiveEnds(s: State, side: Side)
    requires Ends(s) && CanDo(s, ReceiveMsg(side))
    ensures Ends(Do(s, ReceiveMsg(side)))
  {
    if side.Server? {
      ReceiveEnd(Server, s.srv, s.up, s.down);
      CutOffFrame(s.np, s.up, Receive(s.srv, s.up).1);
    } else {
      ReceiveEnd(Np, s.np, s.down, s.up);
      CutOffFrame(s.srv, s.down, Receive(s.np, s.down).1);
    }
  }

  lemma ReceiveEnd(side: Side, e: End, into: Wire, out: Wire)
    requires TableOk(side, e) && TasksOk(e) && CutOffOk(e, out) && e.loop.Idle? && into.queue != []
    ensures var e' := Receive(e, into).0; TableOk(side, e') && TasksOk(e') && CutOffOk(e', out)
  {
  }

  lemma CutOffFrame(e: End, out: Wire, out': Wire)
    requires CutOffOk(e, out) && out'.broken == out.broken
    ensures CutOffOk(e, out')
  {
  }

  lemma ReceiveKeeps(s: State, side: Side)
    requires Inv(s) && CanDo(s, ReceiveMsg(side))
    ensures Inv(Do(s, ReceiveMsg(side)))
  {
    ReceiveEnds(s, side);
    ReceiveLanes(s, side);
    ReceiveShakes(s, side);
    ReceivePorts(s, side);
  }
}
