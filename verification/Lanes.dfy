/** A lane is one direction of one connection: the sending task, the websocket, the receive
    loop on the other side, the channel and the receiving task. What a lane keeps is proved
    here once and holds for both directions. */
module Lanes {
  import opened PortTask
  import opened Session

  /** The port messages for `u` in a queue, in order. */
  function Ports(q: seq<Msg>, u: Uuid): seq<PortMessage> {
    if q == [] then [] else PortOf(q[0], u) + Ports(q[1..], u)
  }

  function PortOf(m: Msg, u: Uuid): seq<PortMessage> {
    if m.Port? && m.uuid == u then [m.msg] else []
  }

  lemma {:induction false} PortsSnoc(q: seq<Msg>, m: Msg, u: Uuid)
    ensures Ports(q + [m], u) == Ports(q, u) + PortOf(m, u)
  {
    if q == [] {
      assert q + [m] == [m] && [m][1..] == [];
    } else {
      assert (q + [m])[0] == q[0] && (q + [m])[1..] == q[1..] + [m];
      PortsSnoc(q[1..], m, u);
    }
  }

  /** What the receive loop has in hand for `u`. */
  function Hand(e: End, u: Uuid): seq<PortMessage> {
    match e.loop
    case Got(m) => PortOf(m, u)
    case Blocked(v, item) => if v == u then [item] else []
    case _ => []
  }

  function Chan(e: End, u: Uuid): seq<PortMessage> {
    if u in e.chans then e.chans[u] else []
  }

  function Sent(e: End, u: Uuid): seq<PortMessage> {
    if u in e.tasks then e.tasks[u].sent else []
  }

  function Taken(e: End, u: Uuid): seq<PortMessage> {
    if u in e.tasks then e.tasks[u].got else []
  }

  /** The task for `u` is over and its channel is gone. */
  predicate Gone(e: End, u: Uuid) {
    u in e.tasks && e.tasks[u].phase.Ended?
  }

  datatype LaneView = LaneView(
    taken: seq<PortMessage>, chan: seq<PortMessage>, hand: seq<PortMessage>, onWire: seq<PortMessage>,
    sent: seq<PortMessage>, open: bool, started: bool)

  function View(from: End, w: Wire, to: End, u: Uuid): LaneView {
    LaneView(Taken(to, u), Chan(to, u), Hand(to, u), Ports(w.queue, u), Sent(from, u),
             !to.loop.Dead? && !Gone(to, u), u in from.tasks)
  }

  /** Nothing is reordered or duplicated; nothing is lost while the loop lives and the
      receiving task is there (or still to come). */
  predicate InOrder(v: LaneView) {
    && v.taken + v.chan <= v.sent
    && (v.open ==> v.taken + v.chan + v.hand + v.onWire == v.sent)
    && (!v.started ==> v.onWire == [] && v.hand == [])
  }

  predicate Lane(from: End, w: Wire, to: End, u: Uuid) {
    InOrder(View(from, w, to, u))
  }

  /** A writer is registered exactly while its task is there, so a blocked send always has
      a receiver; channels keep their bound. */
  ghost predicate TableOk(side: Side, e: End) {
    && (forall u :: u in e.chans <==> u in e.tasks && !e.tasks[u].phase.Ended?)
    && (forall u :: u in e.chans ==> |e.chans[u]| <= Capacity(side))
    && (e.loop.Blocked? ==> e.loop.uuid in e.chans)
    && (e.released ==> e.loop.Dead?)
  }

  ghost predicate TasksOk(e: End) {
    forall u :: u in e.tasks ==> Good(e.tasks[u])
  }

  ghost predicate CutOffOk(e: End, out: Wire) {
    forall u :: u in e.tasks && e.tasks[u].cutOff ==> out.broken
  }

  // ---------- moves of one lane

  lemma Enter(v: LaneView, x: seq<PortMessage>)
    requires InOrder(v) && v.started
    ensures InOrder(v.(sent := v.sent + x, onWire := v.onWire + x))
  {
    assert v.taken + v.chan + v.hand + (v.onWire + x) == v.taken + v.chan + v.hand + v.onWire + x;
  }

  lemma Pass(v: LaneView, m: seq<PortMessage>, rest: seq<PortMessage>)
    requires InOrder(v) && v.hand == [] && v.onWire == m + rest
    ensures InOrder(v.(hand := m, onWire := rest))
  {
    assert v.taken + v.chan + [] + (m + rest) == v.taken + v.chan + m + rest;
  }

  lemma Deliver(v: LaneView)
    requires InOrder(v) && v.open
    ensures InOrder(v.(hand := [], chan := v.chan + v.hand))
  {
    var w := v.(hand := [], chan := v.chan + v.hand);
    assert w.taken + w.chan == v.taken + v.chan + v.hand;
    assert w.taken + w.chan + [] + w.onWire == v.taken + v.chan + v.hand + v.onWire;
  }

  lemma Take(v: LaneView)
    requires InOrder(v) && v.chan != []
    ensures InOrder(v.(taken := v.taken + [v.chan[0]], chan := v.chan[1..]))
  {
    assert v.taken + [v.chan[0]] + v.chan[1..] == v.taken + v.chan;
  }

  lemma Discard(v: LaneView)
    requires InOrder(v)
    ensures InOrder(v.(hand := [], open := false))
    ensures InOrder(v.(chan := [], open := false))
  {
  }

  // ---------- steps of the tasks

  lemma TaskKeepsGood(side: Side, e: End, out: Wire, v: Uuid, ev: Event)
    requires TasksOk(e) && TaskEnabled(side, e, out, v, ev)
    ensures TasksOk(TaskEnd(side, e, v, ev))
  {
    StepSends(side, e.tasks[v], ev);
    StepWrites(side, e.tasks[v], ev);
    assert Good(Step(side, e.tasks[v], ev));
  }

  lemma TaskKeepsTable(side: Side, e: End, out: Wire, v: Uuid, ev: Event)
    requires TableOk(side, e) && TaskEnabled(side, e, out, v, ev)
    ensures TableOk(side, TaskEnd(side, e, v, ev))
  {
    StepOutline(side, e.tasks[v], ev);
    TableMoves(side, e, v, Step(side, e.tasks[v], ev), TaskEnd(side, e, v, ev).chans);
  }

  lemma TableMoves(side: Side, e: End, v: Uuid, t': Task, chans': map<Uuid, seq<PortMessage>>)
    requires TableOk(side, e) && v in e.chans
    requires if t'.phase.Ended? then chans' == e.chans - {v} && !e.loop.Blocked?
             else v in chans' && |chans'[v]| <= Capacity(side) && chans' == e.chans[v := chans'[v]]
    ensures TableOk(side, e.(tasks := e.tasks[v := t'], chans := chans'))
  {
  }

  lemma TaskKeepsCutOff(side: Side, e: End, out: Wire, v: Uuid, ev: Event)
    requires CutOffOk(e, out) && TaskEnabled(side, e, out, v, ev)
    ensures CutOffOk(TaskEnd(side, e, v, ev), TaskWire(e, out, v, ev))
  {
    StepOutline(side, e.tasks[v], ev);
  }

  lemma SenderStep(side: Side, from: End, w: Wire, to: End, v: Uuid, ev: Event, u: Uuid)
    requires Lane(from, w, to, u) && TaskEnabled(side, from, w, v, ev)
    ensures Lane(TaskEnd(side, from, v, ev), TaskWire(from, w, v, ev), to, u)
  {
    StepOutline(side, from.tasks[v], ev);
    var before, after := View(from, w, to, u), View(TaskEnd(side, from, v, ev), TaskWire(from, w, v, ev), to, u);
    if ev.SendOk? || (ev.SendError? && ev.reached) {
      var m := from.tasks[v].phase.msg;
      PortsSnoc(w.queue, Port(v, m), u);
      if u == v {
        Enter(before, [m]);
      } else {
        assert after == before;
      }
    } else {
      assert after == before;
    }
  }

  lemma ReceiverStep(side: Side, from: End, w: Wire, to: End, out: Wire, v: Uuid, ev: Event, u: Uuid)
    requires Lane(from, w, to, u) && TableOk(side, to) && TaskEnabled(side, to, out, v, ev)
    ensures Lane(from, w, TaskEnd(side, to, v, ev), u)
  {
    StepOutline(side, to.tasks[v], ev);
    ReceiverMoves(from, w, to, TaskEnd(side, to, v, ev), v, ev, u);
  }

  lemma ReceiverMoves(from: End, w: Wire, to: End, to': End, v: Uuid, ev: Event, u: Uuid)
    requires Lane(from, w, to, u) && v in to.tasks && v in to.chans && !Gone(to, v)
    requires v in to'.tasks && to'.tasks == to.tasks[v := to'.tasks[v]] && to'.loop == to.loop
    requires to'.tasks[v].got == to.tasks[v].got + (if ev.Dequeue? then [ev.msg] else [])
    requires Gone(to', v) <==> ev.Unregister?
    requires ev.Dequeue? ==> to.chans[v] != [] && to.chans[v][0] == ev.msg
    requires to'.chans == if ev.Dequeue? then to.chans[v := to.chans[v][1..]]
                          else if ev.Unregister? then to.chans - {v} else to.chans
    ensures Lane(from, w, to', u)
  {
    var before, after := View(from, w, to, u), View(from, w, to', u);
    if u != v {
      assert after == before;
    } else if ev.Dequeue? {
      Take(before);
      assert after == before.(taken := before.taken + [before.chan[0]], chan := before.chan[1..]);
    } else if ev.Unregister? {
      Discard(before);
      assert after == before.(chan := [], open := false);
    } else {
      assert after == before;
    }
  }

  // ---------- steps of the receiving loop

  lemma ReceiveStep(from: End, w: Wire, to: End, u: Uuid)
    requires Lane(from, w, to, u) && to.loop.Idle? && w.queue != []
    ensures Lane(from, Receive(to, w).1, Receive(to, w).0, u)
  {
    Pass(View(from, w, to, u), PortOf(w.queue[0], u), Ports(w.queue[1..], u));
  }

  lemma DispatchKeepsTable(side: Side, e: End)
    requires TableOk(side, e) && e.loop.Got? && e.loop.msg.Port?
    ensures TableOk(side, Dispatch(side, e))
  {
  }

  /** np drops a message only when its task is over: the server's task for `u` starts
      after np's. On the server a drop ends the loop. */
  lemma DispatchStep(side: Side, from: End, w: Wire, to: End, u: Uuid)
    requires Lane(from, w, to, u) && TableOk(side, to) && to.loop.Got? && to.loop.msg.Port?
    requires side.Np? && u in from.tasks ==> u in to.tasks
    ensures Lane(from, w, Dispatch(side, to), u)
  {
    var before, after := View(from, w, to, u), View(from, w, Dispatch(side, to), u);
    if to.loop.msg.uuid in to.chans {
      assert after == before;
    } else if side.Server? || u == to.loop.msg.uuid {
      Discard(before);
      assert Hand(Dispatch(side, to), u) == [];
    } else {
      assert after == before;
    }
  }

  lemma PushKeepsTable(side: Side, e: End)
    requires TableOk(side, e) && e.loop.Blocked? && |e.chans[e.loop.uuid]| < Capacity(side)
    ensures TableOk(side, Push(e))
  {
  }

  lemma PushStep(side: Side, from: End, w: Wire, to: End, u: Uuid)
    requires Lane(from, w, to, u) && TableOk(side, to) && to.loop.Blocked?
    ensures Lane(from, w, Push(to), u)
  {
    var before, after := View(from, w, to, u), View(from, w, Push(to), u);
    if u == to.loop.uuid {
      Deliver(before);
      assert after == before.(hand := [], chan := before.chan + before.hand);
    } else {
      assert after == before;
    }
  }

  /** The loop goes on with nothing in hand for `u`, or ends. */
  lemma LoopStep(from: End, w: Wire, to: End, loop: Loop, u: Uuid)
    requires Lane(from, w, to, u) && !to.loop.Dead?
    requires Hand(to.(loop := loop), u) == []
    requires Hand(to, u) == [] || loop.Dead?
    ensures Lane(from, w, to.(loop := loop), u)
  {
    Discard(View(from, w, to, u));
  }

  /** Messages that are not for a port do not show in any lane. */
  lemma SendStep(from: End, w: Wire, to: End, m: Msg, fate: Fate, u: Uuid)
    requires Lane(from, w, to, u) && !m.Port?
    ensures Lane(from, Send(w, m, fate), to, u)
  {
    PortsSnoc(w.queue, m, u);
    assert View(from, Send(w, m, fate), to, u) == View(from, w, to, u);
  }

  // ---------- a task starts

  lemma StartKeepsTable(side: Side, e: End, v: Uuid)
    requires TableOk(side, e) && v !in e.tasks
    ensures TableOk(side, Start(e, v))
  {
  }

  lemma StartKeepsGood(e: End, v: Uuid)
    requires TasksOk(e)
    ensures TasksOk(Start(e, v))
  {
    assert Good(NewTask);
  }

  lemma SenderStarts(from: End, w: Wire, to: End, v: Uuid, u: Uuid)
    requires Lane(from, w, to, u) && v !in from.tasks
    ensures Lane(Start(from, v), w, to, u)
  {
  }

  lemma ReceiverStarts(side: Side, from: End, w: Wire, to: End, v: Uuid, u: Uuid)
    requires Lane(from, w, to, u) && TableOk(side, to) && v !in to.tasks
    ensures Lane(from, w, Start(to, v), u)
  {
    assert View(from, w, Start(to, v), u) == View(from, w, to, u);
  }
}
