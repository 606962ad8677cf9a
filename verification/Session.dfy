/** One websocket session between the server and one np client, as a small-step system.

    Many TCP connections, each with a uuid, share the websocket. On either side every
    connection has a task of its own (module PortTask) and one receive loop feeds the tasks
    through bounded channels. A step is what happens between two await points; steps of
    different tasks interleave freely. Fields marked "history" influence no step. */
module Session {
  import opened Text
  import opened Addresses
  import opened PortTask

  datatype Msg =
    | Open(local: Addr)
    | Opened(remote: Address, local: Addr, listener: nat)   // listener: history
    | Refused                                               // PortOpened with an error
    | Connect(uuid: Uuid, remote: Address)
    | Connected(uuid: Uuid, ok: bool)
    | Port(uuid: Uuid, msg: PortMessage)                    // PortReceive and PortClose

  /** A direction of the websocket: FIFO; once a send has failed every later one fails. */
  datatype Wire = Wire(queue: seq<Msg>, broken: bool, log: seq<Msg>)   // log: history

  datatype Fate = Delivered | Failed(reached: bool)

  predicate CanMeet(w: Wire, fate: Fate) {
    fate.Delivered? || fate.reached ==> !w.broken
  }

  function Put(w: Wire, m: Msg): Wire {
    w.(queue := w.queue + [m], log := w.log + [m])
  }

  function Send(w: Wire, m: Msg, fate: Fate): Wire {
    match fate
    case Delivered => Put(w, m)
    case Failed(reached) => (if reached then Put(w, m) else w).(broken := true)
  }

  /** The receive loop: between messages, holding one, blocked on a full channel with the
      writer table locked for reading, dialling, sending an answer, or over. */
  datatype Loop =
    | Idle
    | Got(msg: Msg)
    | Blocked(uuid: Uuid, item: PortMessage)
    | Dialling(uuid: Uuid, target: Addr)
    | Answering(answer: Msg)
    | Dead

  /** One side. `chans` is its table of port writers, with what is in each channel. */
  datatype End = End(tasks: map<Uuid, Task>, chans: map<Uuid, seq<PortMessage>>, loop: Loop, released: bool)

  function Capacity(side: Side): nat {
    if side.Server? then 4 else 1
  }

  /** The accept loop of a port: between connections, in one of `serve_socket`'s awaits, or
      over (with the connection request it left behind, if any). */
  datatype AcceptPhase =
    | Accepting
    | Asking(uuid: Uuid)
    | Waiting(uuid: Uuid)
    | Replied(uuid: Uuid, ok: bool)
    | Stopped(left: Option<Uuid>)

  /** `local` (history) is the local address of the PortOpen that created it; `mute`
      (history) tells that the websocket was already broken then. */
  datatype Listener = Listener(port: Port, local: Addr, phase: AcceptPhase, mute: bool)

  datatype State = State(
    host: Option<string>,            // of the TCP hostname
    srv: End, np: End,
    down: Wire, up: Wire,            // server to np, np to server
    listeners: seq<Listener>,
    pending: set<Uuid>,              // connect_requests
    forwardings: map<string, Addr>,  // np's port_forwardings
    owner: map<Uuid, nat>,           // history: listener that accepted each uuid
    announced: set<nat>,             // history: listeners whose PortOpened np has handled
    dialled: map<Uuid, Addr>,        // history: where np connected
    confirmed: set<Uuid>)            // history: positive replies the server has handled

  const NewEnd := End(map[], map[], Idle, false)

  const NewWire := Wire([], false, [])

  function Init(host: Option<string>): State {
    State(host, NewEnd, NewEnd, NewWire, NewWire, [], {}, map[], map[], {}, map[], {})
  }

  function Remote(s: State, l: nat): Addr
    requires l < |s.listeners|
  {
    Addr(s.host, s.listeners[l].port)
  }

  // ---------- steps of a port task

  predicate TaskEnabled(side: Side, e: End, out: Wire, u: Uuid, ev: Event) {
    && u in e.tasks && Enabled(e.tasks[u], ev)
    && (ev.Dequeue? ==> u in e.chans && e.chans[u] != [] && e.chans[u][0] == ev.msg)
    && ((ev.Read? || ev.Elapsed?) ==> ev.alive == !e.released)
    && ((ev.SendOk? || (ev.SendError? && ev.reached)) ==> !out.broken)
    && (ev.Unregister? ==> !e.loop.Blocked?)
  }

  function TaskEnd(side: Side, e: End, u: Uuid, ev: Event): End
    requires u in e.tasks && Enabled(e.tasks[u], ev)
    requires ev.Dequeue? ==> u in e.chans && e.chans[u] != []
  {
    End(e.tasks[u := Step(side, e.tasks[u], ev)],
        if ev.Dequeue? then e.chans[u := e.chans[u][1..]]
        else if ev.Unregister? then e.chans - {u}
        else e.chans,
        e.loop, e.released)
  }

  function TaskWire(e: End, out: Wire, u: Uuid, ev: Event): Wire
    requires u in e.tasks && Enabled(e.tasks[u], ev)
  {
    if ev.SendOk? then Put(out, Port(u, e.tasks[u].phase.msg))
    else if ev.SendError? then Send(out, Port(u, e.tasks[u].phase.msg), Failed(ev.reached))
    else out
  }

  // ---------- steps of a receive loop that both sides share

  function Receive(e: End, into: Wire): (End, Wire)
    requires into.queue != []
  {
    (e.(loop := Got(into.queue[0])), into.(queue := into.queue[1..]))
  }

  /** Looks the writer up: the server ends the session when there is none, np only logs. */
  function Dispatch(side: Side, e: End): End
    requires e.loop.Got? && e.loop.msg.Port?
  {
    var Port(u, m) := e.loop.msg;
    e.(loop := if u in e.chans then Blocked(u, m) else if side.Server? then Dead else Idle)
  }

  function Push(e: End): End
    requires e.loop.Blocked? && e.loop.uuid in e.chans
  {
    var u := e.loop.uuid;
    e.(loop := Idle, chans := e.chans[u := e.chans[u] + [e.loop.item]])
  }

  function Start(e: End, u: Uuid): End {
    e.(tasks := e.tasks[u := NewTask], chans := e.chans[u := []])
  }

  // ---------- the system

  datatype Action =
    | RequestPort(local: Addr, fate: Fate)         // np asks for a port
    | ServerTask(uuid: Uuid, ev: Event)
    | NpTask(uuid: Uuid, ev: Event)
    | ReceiveMsg(side: Side)
    | DispatchMsg(side: Side)
    | PushMsg(side: Side)
    | LoopFails(side: Side)                        // recv returns an error
    | Release(side: Side)                          // the last strong reference goes
    | Bind(port: Option<Port>)                     // server handles Open
    | Announce(fate: Fate)                         // and answers
    | Accept(listener: nat, uuid: Uuid)
    | AskNp(listener: nat, fate: Fate)             // sends PortConnect
    | HandleConnected
    | Resume(listener: nat)
    | StopListener(listener: nat)
    | HandleOpened
    | HandleConnect
    | Dial(ok: bool)
    | Reply(fate: Fate)                            // sends PortConnected

  function EndOf(s: State, side: Side): End {
    if side.Server? then s.srv else s.np
  }

  function WithEnd(s: State, side: Side, e: End): State {
    if side.Server? then s.(srv := e) else s.(np := e)
  }

  predicate PortFree(s: State, p: Port) {
    forall l :: 0 <= l < |s.listeners| && s.listeners[l].port == p ==> s.listeners[l].phase.Stopped?
  }

  predicate NoneSending(e: End) {
    forall u :: u in e.tasks ==> !e.tasks[u].phase.Sending?
  }

  /** No accept loop is inside `serve_socket`, where it holds a strong reference. */
  predicate NoneServing(s: State) {
    forall l :: 0 <= l < |s.listeners| ==> s.listeners[l].phase.Accepting? || s.listeners[l].phase.Stopped?
  }

  predicate CanDo(s: State, a: Action) {
    match a
    case RequestPort(_, fate) => CanMeet(s.up, fate)
    case ServerTask(u, ev) => TaskEnabled(Server, s.srv, s.down, u, ev)
    case NpTask(u, ev) => TaskEnabled(Np, s.np, s.up, u, ev)
    case ReceiveMsg(side) => EndOf(s, side).loop.Idle? && (if side.Server? then s.up else s.down).queue != []
    case DispatchMsg(side) => EndOf(s, side).loop.Got? && EndOf(s, side).loop.msg.Port?
    case PushMsg(side) =>
      var e := EndOf(s, side);
      e.loop.Blocked? && e.loop.uuid in e.chans && |e.chans[e.loop.uuid]| < Capacity(side)
    case LoopFails(side) => EndOf(s, side).loop.Idle?
    case Release(side) => EndOf(s, side).loop.Dead? && NoneSending(EndOf(s, side)) && (side.Server? ==> NoneServing(s))
    case Bind(port) => s.srv.loop.Got? && s.srv.loop.msg.Open? && (port.Some? ==> 0 < port.value && PortFree(s, port.value))
    case Announce(fate) => s.srv.loop.Answering? && CanMeet(s.down, fate)
    case Accept(l, u) => l < |s.listeners| && s.listeners[l].phase.Accepting? && !s.srv.released && u !in s.owner
    case AskNp(l, fate) => l < |s.listeners| && s.listeners[l].phase.Asking? && CanMeet(s.down, fate)
    case HandleConnected => s.srv.loop.Got? && s.srv.loop.msg.Connected?
    case Resume(l) =>
      l < |s.listeners| && s.listeners[l].phase.Replied? && (s.listeners[l].phase.ok ==> !s.srv.loop.Blocked?)
    case StopListener(l) => l < |s.listeners| && s.listeners[l].phase.Accepting? && s.srv.released
    case HandleOpened => s.np.loop.Got? && (s.np.loop.msg.Opened? || s.np.loop.msg.Refused?)
    case HandleConnect => s.np.loop.Got? && s.np.loop.msg.Connect?
    case Dial(_) => s.np.loop.Dialling?
    case Reply(fate) => s.np.loop.Answering? && CanMeet(s.up, fate)
  }

  function SetPhase(s: State, l: nat, phase: AcceptPhase): State
    requires l < |s.listeners|
  {
    s.(listeners := s.listeners[l := s.listeners[l].(phase := phase)])
  }

  function DoBind(s: State, port: Option<Port>): State
    requires s.srv.loop.Got? && s.srv.loop.msg.Open?
  {
    if port == None then s.(srv := s.srv.(loop := Answering(Refused)))
    else
      var local := s.srv.loop.msg.local;
      s.(listeners := s.listeners + [Listener(port.value, local, Accepting, s.down.broken)],
         srv := s.srv.(loop := Answering(Opened(ToAddress(Addr(s.host, port.value)), local, |s.listeners|))))
  }

  function DoAccept(s: State, l: nat, u: Uuid): State
    requires l < |s.listeners|
  {
    SetPhase(s, l, Asking(u)).(pending := s.pending + {u}, owner := s.owner[u := l])
  }

  function DoAsk(s: State, l: nat, fate: Fate): State
    requires l < |s.listeners| && s.listeners[l].phase.Asking?
  {
    var u := s.listeners[l].phase.uuid;
    SetPhase(s, l, if fate.Delivered? then Waiting(u) else Stopped(Some(u)))
      .(down := Send(s.down, Connect(u, ToAddress(Remote(s, l))), fate))
  }

  /** The server's loop passes the reply on, or ends the session if nobody asked. */
  function DoConnected(s: State): State
    requires s.srv.loop.Got? && s.srv.loop.msg.Connected?
  {
    var Connected(u, ok) := s.srv.loop.msg;
    if u !in s.pending then s.(srv := s.srv.(loop := Dead))
    else
      var s' := s.(srv := s.srv.(loop := Idle), pending := s.pending - {u},
                  confirmed := if ok then s.confirmed + {u} else s.confirmed);
      if u in s.owner && s.owner[u] < |s.listeners| && s.listeners[s.owner[u]].phase == Waiting(u)
      then SetPhase(s', s.owner[u], Replied(u, ok))
      else s'
  }

  /** `serve_socket` has its reply: it registers the writer and spawns the task. */
  function DoResume(s: State, l: nat): State
    requires l < |s.listeners| && s.listeners[l].phase.Replied?
  {
    var Replied(u, ok) := s.listeners[l].phase;
    var s' := SetPhase(s, l, Accepting);
    if ok && u !in s.srv.chans then s'.(srv := Start(s.srv, u)) else s'
  }

  function DoOpened(s: State): State
    requires s.np.loop.Got? && (s.np.loop.msg.Opened? || s.np.loop.msg.Refused?)
  {
    var s' := s.(np := s.np.(loop := Idle));
    match s.np.loop.msg
    case Opened(remote, local, l) =>
      var key := PortOrigin(FromAddress(remote));
      s'.(announced := s.announced + {l},
          forwardings := if key in s.forwardings then s.forwardings else s.forwardings[key := local])
    case Refused => s'
  }

  function DoConnect(s: State): State
    requires s.np.loop.Got? && s.np.loop.msg.Connect?
  {
    var key := PortOrigin(FromAddress(s.np.loop.msg.remote));
    s.(np := s.np.(loop :=
      if key in s.forwardings then Dialling(s.np.loop.msg.uuid, s.forwardings[key])
      else Answering(Connected(s.np.loop.msg.uuid, false))))
  }

  /** np connects; only with a stream and a free table entry does it start the task. */
  function DoDial(s: State, ok: bool): State
    requires s.np.loop.Dialling?
  {
    var Dialling(u, local) := s.np.loop;
    if ok && u !in s.np.chans
    then s.(np := Start(s.np, u).(loop := Answering(Connected(u, true))), dialled := s.dialled[u := local])
    else s.(np := s.np.(loop := Answering(Connected(u, false))))
  }

  function Do(s: State, a: Action): State
    requires CanDo(s, a)
  {
    match a
    case RequestPort(local, fate) => s.(up := Send(s.up, Open(local), fate))
    case ServerTask(u, ev) => s.(srv := TaskEnd(Server, s.srv, u, ev), down := TaskWire(s.srv, s.down, u, ev))
    case NpTask(u, ev) => s.(np := TaskEnd(Np, s.np, u, ev), up := TaskWire(s.np, s.up, u, ev))
    case ReceiveMsg(Server) => var (e, w) := Receive(s.srv, s.up); s.(srv := e, up := w)
    case ReceiveMsg(Np) => var (e, w) := Receive(s.np, s.down); s.(np := e, down := w)
    case DispatchMsg(side) => WithEnd(s, side, Dispatch(side, EndOf(s, side)))
    case PushMsg(side) => WithEnd(s, side, Push(EndOf(s, side)))
    case LoopFails(side) => WithEnd(s, side, EndOf(s, side).(loop := Dead))
    case Release(side) => WithEnd(s, side, EndOf(s, side).(released := true))
    case Bind(port) => DoBind(s, port)
    case Announce(fate) =>
      s.(down := Send(s.down, s.srv.loop.answer, fate), srv := s.srv.(loop := if fate.Delivered? then Idle else Dead))
    case Accept(l, u) => DoAccept(s, l, u)
    case AskNp(l, fate) => DoAsk(s, l, fate)
    case HandleConnected => DoConnected(s)
    case Resume(l) => DoResume(s, l)
    case StopListener(l) => SetPhase(s, l, Stopped(None))
    case HandleOpened => DoOpened(s)
    case HandleConnect => DoConnect(s)
    case Dial(ok) => DoDial(s, ok)
    case Reply(fate) => s.(up := Send(s.up, s.np.loop.answer, fate), np := s.np.(loop := Idle))
  }

  /** A schedule of any length. */
  predicate Legal(s: State, acts: seq<Action>)
    decreases |acts|
  {
    acts == [] || (CanDo(s, acts[0]) && Legal(Do(s, acts[0]), acts[1..]))
  }

  function After(s: State, acts: seq<Action>): State
    requires Legal(s, acts)
    decreases |acts|
  {
    if acts == [] then s else After(Do(s, acts[0]), acts[1..])
  }

  lemma One(s: State, a: Action)
    requires CanDo(s, a)
    ensures Legal(s, [a]) && After(s, [a]) == Do(s, a)
  {
  }

  lemma Two(s: State, a: Action, b: Action)
    requires CanDo(s, a) && CanDo(Do(s, a), b)
    ensures Legal(s, [a, b]) && After(s, [a, b]) == Do(Do(s, a), b)
  {
    assert [a, b][1..] == [b];
    One(Do(s, a), b);
  }

  lemma Three(s: State, a: Action, b: Action, c: Action)
    requires CanDo(s, a) && CanDo(Do(s, a), b) && CanDo(Do(Do(s, a), b), c)
    ensures Legal(s, [a, b, c]) && After(s, [a, b, c]) == Do(Do(Do(s, a), b), c)
  {
    assert [a, b, c][1..] == [b, c];
    Two(Do(s, a), b, c);
  }

  /** What handling a reply touches. */
  lemma ConnectedView(s: State)
    requires s.srv.loop.Got? && s.srv.loop.msg.Connected?
    ensures var u, s' := s.srv.loop.msg.uuid, DoConnected(s);
            && s'.srv == s.srv.(loop := if u in s.pending then Idle else Dead) && s'.pending == s.pending - {u}
            && s'.np == s.np && s'.down == s.down && s'.up == s.up && |s'.listeners| == |s.listeners|
            && (forall l :: 0 <= l < |s.listeners| ==> s'.listeners[l].port == s.listeners[l].port)
  {
  }

  /** What the receive loop does with a port message when it need not wait. */
  function PortActs(side: Side, s: State): seq<Action>
    requires EndOf(s, side).loop.Got? && EndOf(s, side).loop.msg.Port?
  {
    var e := EndOf(s, side);
    if e.loop.msg.uuid in e.chans && |e.chans[e.loop.msg.uuid]| < Capacity(side)
    then [DispatchMsg(side), PushMsg(side)]
    else [DispatchMsg(side)]
  }

  function PortDone(side: Side, e: End): End
    requires e.loop.Got? && e.loop.msg.Port?
  {
    var e' := Dispatch(side, e);
    if e'.loop.Blocked? && |e.chans[e'.loop.uuid]| < Capacity(side) then Push(e') else e'
  }

  lemma PortLegal(side: Side, s: State)
    requires EndOf(s, side).loop.Got? && EndOf(s, side).loop.msg.Port?
    ensures var acts := PortActs(side, s);
            Legal(s, acts) && After(s, acts) == WithEnd(s, side, PortDone(side, EndOf(s, side)))
  {
    if |PortActs(side, s)| == 2 {
      Two(s, DispatchMsg(side), PushMsg(side));
    } else {
      One(s, DispatchMsg(side));
    }
  }

  /** States that some schedule reaches from empty tables. */
  ghost predicate Reachable(s: State) {
    exists host, acts :: Legal(Init(host), acts) && After(Init(host), acts) == s
  }

  lemma {:induction false} AfterConcat(s: State, a: seq<Action>, b: seq<Action>)
    requires Legal(s, a) && Legal(After(s, a), b)
    ensures Legal(s, a + b) && After(s, a + b) == After(After(s, a), b)
    decreases |a|
  {
    if a == [] {
      assert a + b == b;
    } else {
      assert (a + b)[0] == a[0] && (a + b)[1..] == a[1..] + b;
      AfterConcat(Do(s, a[0]), a[1..], b);
    }
  }

  lemma ReachableOn(s: State, acts: seq<Action>)
    requires Reachable(s) && Legal(s, acts)
    ensures Reachable(After(s, acts))
  {
    var host, before :| Legal(Init(host), before) && After(Init(host), before) == s;
    AfterConcat(Init(host), before, acts);
  }
}
