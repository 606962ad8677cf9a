/** np's side of the websocket: the tables of its `Client` and what it does with each message
    of the server. Handling a message is proved to be a sequence of steps of module Session. */
module NpClient {
  import opened Text
  import opened Addresses
  import opened PortTask
  import opened Session
  import opened Channels
  import HttpTunnels
  import SessionTheorems

  /** `mpsc::channel(1)` in `start`. */
  const CHANNEL_SIZE: nat := 1

  // ---------- what handling one message amounts to

  function ConnectActs(s: State, connects: bool, fate: Fate): seq<Action>
    requires s.np.loop.Got? && s.np.loop.msg.Connect?
  {
    if DoConnect(s).np.loop.Dialling? then [HandleConnect, Dial(connects), Reply(fate)] else [HandleConnect, Reply(fate)]
  }

  function Answered(s: State, fate: Fate): State
    requires s.np.loop.Answering?
  {
    s.(up := Session.Send(s.up, s.np.loop.answer, fate), np := s.np.(loop := Idle))
  }

  function Handled(s: State, connects: bool, fate: Fate): State
    requires s.np.loop.Got? && s.np.loop.msg.Connect?
  {
    var s1 := DoConnect(s);
    Answered(if s1.np.loop.Dialling? then DoDial(s1, connects) else s1, fate)
  }

  lemma ConnectLegal(s: State, connects: bool, fate: Fate)
    requires s.np.loop.Got? && s.np.loop.msg.Connect? && CanMeet(s.up, fate)
    ensures var acts := ConnectActs(s, connects, fate); Legal(s, acts) && After(s, acts) == Handled(s, connects, fate)
  {
    var s1 := DoConnect(s);
    assert CanDo(s, HandleConnect) && Do(s, HandleConnect) == s1;
    if s1.np.loop.Dialling? {
      DialLegal(s1, connects, fate);
      Three(s, HandleConnect, Dial(connects), Reply(fate));
    } else {
      AnswerLegal(s1, fate);
      Two(s, HandleConnect, Reply(fate));
    }
  }

  lemma AnswerLegal(s: State, fate: Fate)
    requires s.np.loop.Answering? && CanMeet(s.up, fate)
    ensures CanDo(s, Reply(fate)) && Do(s, Reply(fate)) == Answered(s, fate)
  {
  }

  lemma DialLegal(s: State, connects: bool, fate: Fate)
    requires s.np.loop.Dialling? && CanMeet(s.up, fate)
    ensures CanDo(s, Dial(connects)) && Do(s, Dial(connects)) == DoDial(s, connects)
    ensures CanDo(DoDial(s, connects), Reply(fate))
    ensures Do(DoDial(s, connects), Reply(fate)) == Answered(DoDial(s, connects), fate)
  {
    DialView(s, connects);
    AnswerLegal(DoDial(s, connects), fate);
  }

  /** What dialling touches. */
  lemma DialView(s: State, connects: bool)
    requires s.np.loop.Dialling?
    ensures var u, s' := s.np.loop.uuid, DoDial(s, connects); var starts := connects && u !in s.np.chans;
            && s'.np.loop == Answering(Connected(u, starts)) && s'.up == s.up && s'.forwardings == s.forwardings
            && s'.np.chans == (if starts then s.np.chans[u := []] else s.np.chans)
            && s'.np.tasks == (if starts then s.np.tasks[u := NewTask] else s.np.tasks)
  {
  }

  /** What answering a PortConnect comes to. */
  lemma HandledView(s: State, u: Uuid, remote: Address, connects: bool, fate: Fate)
    requires s.np.loop == Got(Msg.Connect(u, remote))
    ensures var key := PortOrigin(FromAddress(remote));
            var starts := connects && u !in s.np.chans && key in s.forwardings;
            var s' := Handled(s, connects, fate);
            && s'.np == (if starts then Session.Start(s.np, u) else s.np).(loop := Idle)
            && s'.up == Session.Send(s.up, Connected(u, starts), fate) && s'.forwardings == s.forwardings
  {
  }

  lemma OpenedLegal(s: State)
    requires s.np.loop.Got? && (s.np.loop.msg.Opened? || s.np.loop.msg.Refused?)
    ensures Legal(s, [HandleOpened]) && After(s, [HandleOpened]) == DoOpened(s)
  {
    One(s, HandleOpened);
  }

  class Client {
    var httpForwardings: map<string, Addr>
    var portForwardings: map<string, Addr>
    var portWriters: map<Uuid, Channel>
    var connection: Option<Wire>   // the sending half

    ghost predicate Valid()
      reads this, portWriters.Values
    {
      AreWriters(portWriters, CHANNEL_SIZE)
    }

    /** The tables are those of np in `s`. */
    ghost predicate Shows(s: State)
      reads this, portWriters.Values
    {
      && Shown(portWriters, s.np)
      && s.forwardings == portForwardings
      && connection == Some(s.up)
    }

    constructor ()
      ensures Valid() && httpForwardings == map[] && portForwardings == map[] && portWriters == map[]
      ensures connection == None
    {
      httpForwardings, portForwardings, portWriters, connection := map[], map[], map[], None;
    }

    /** A session begins: np is connected, with empty tables. */
    method ConnectTo()
      requires portForwardings == map[] && portWriters == map[]
      modifies this`connection
      ensures Valid() && forall host :: Shows(Init(host))
    {
      connection := Some(NewWire);
    }

    method Disconnect()
      modifies this
      ensures Valid() && connection == None
      ensures httpForwardings == map[] && portForwardings == map[] && portWriters == map[]
    {
      connection := None;
      httpForwardings, portForwardings, portWriters := map[], map[], map[];
    }

    // ---------- HTTP forwardings

    method HttpRegister(host: string, local: Address, failed: bool) returns (ok: bool)
      modifies this`httpForwardings
      ensures ok <==> !failed && host !in old(httpForwardings)
      ensures httpForwardings ==
              HttpTunnels.Apply(old(httpForwardings), HttpTunnels.HttpOpened(host, FromAddress(local), failed))
      ensures httpForwardings == if ok then old(httpForwardings)[host := FromAddress(local)] else old(httpForwardings)
    {
      if failed {
        return false;
      }
      ok := host !in httpForwardings;
      if ok {
        httpForwardings := httpForwardings[host := FromAddress(local)];
      }
    }

    method HttpDeregister(host: string, failed: bool) returns (ok: bool)
      modifies this`httpForwardings
      ensures ok <==> host in old(httpForwardings)
      ensures httpForwardings == HttpTunnels.Apply(old(httpForwardings), HttpTunnels.HttpClosed(host, failed))
      ensures httpForwardings == old(httpForwardings) - {host}
    {
      ok := host in httpForwardings;
      if ok {
        httpForwardings := httpForwardings - {host};
      }
    }

    // ---------- ports

    /** The first announcement of an origin stays. */
    method PortRegister(remote: Address, local: Addr, failed: bool) returns (ok: bool)
      modifies this`portForwardings
      ensures var key := PortOrigin(FromAddress(remote));
              && (ok <==> !failed && key !in old(portForwardings))
              && portForwardings == if ok then old(portForwardings)[key := local] else old(portForwardings)
    {
      if failed {
        return false;
      }
      var origin := PortOrigin(FromAddress(remote));
      ok := origin !in portForwardings;
      if ok {
        portForwardings := portForwardings[origin := local];
      }
    }

    method PortWriterRegister(u: Uuid, sender: Channel) returns (ok: bool)
      modifies this`portWriters
      ensures ok <==> u !in old(portWriters)
      ensures portWriters == if ok then old(portWriters)[u := sender] else old(portWriters)
    {
      ok := u !in portWriters;
      if ok {
        portWriters := portWriters[u := sender];
      }
    }

    /** A leaving task removes its writer: its Unregister step. */
    method PortWriterRemove(u: Uuid, ghost s: State)
      requires Valid() && Shows(s) && CanDo(s, NpTask(u, Unregister))
      modifies this`portWriters
      ensures Valid() && Shows(Do(s, NpTask(u, Unregister))) && u !in portWriters
    {
      portWriters := portWriters - {u};
      assert Contents(portWriters) == old(Contents(portWriters)) - {u};
    }

    /** Hands a message to the task of `u`, if its writer is registered and its receiver is
        still there; `full` when that must wait. */
    method PortMessage(u: Uuid, m: PortMessage) returns (ok: bool, full: bool)
      requires Valid()
      modifies if u in portWriters then {portWriters[u]} else {}
      ensures Valid() && (full ==> ok)
      ensures ok <==> u in portWriters && !old(portWriters[u].dropped)
      ensures full <==> ok && |old(portWriters[u].queue)| >= CHANNEL_SIZE
      ensures u in portWriters ==> portWriters[u].dropped == old(portWriters[u].dropped)
      ensures Contents(portWriters) ==
              if ok && !full then old(Contents(portWriters))[u := old(portWriters[u].queue) + [m]]
              else old(Contents(portWriters))
    {
      if u !in portWriters {
        return false, false;
      }
      var gone;
      gone, full := portWriters[u].Send(m);
      ok := !gone;
    }

    /** A new task's channel, unless the connection has one. */
    method NewWriter(u: Uuid, ghost e: End) returns (task: Option<Channel>)
      requires Valid() && Shown(portWriters, e)
      modifies this`portWriters
      ensures Valid() && (task.Some? <==> u !in old(portWriters))
      ensures Shown(portWriters, if task.Some? then Session.Start(e, u) else e)
      ensures task.Some? ==> fresh(task.value) && portWriters == old(portWriters)[u := task.value]
      ensures task.None? ==> portWriters == old(portWriters)
    {
      var channel := new Channel(CHANNEL_SIZE);
      var registered := PortWriterRegister(u, channel);
      task := if registered then Some(channel) else None;
      assert registered ==> Contents(portWriters) == old(Contents(portWriters))[u := []];
    }

    /** Connects to the local address (`connects` tells the outcome) and only then creates and
        registers the channel of the new task. */
    method Start(u: Uuid, local: Addr, connects: bool, ghost s: State) returns (task: Option<Channel>)
      requires Valid() && Shows(s) && s.np.loop == Dialling(u, local)
      modifies this`portWriters
      ensures Valid() && Shows(DoDial(s, connects))
      ensures task.Some? <==> connects && u !in old(portWriters)
      ensures task.Some? ==> fresh(task.value) && u in portWriters && portWriters[u] == task.value
    {
      DialView(s, connects);
      if connects {
        task := NewWriter(u, s.np);
      } else {
        task := None;
      }
    }

    /** Puts a message on the websocket, if there is one. */
    method Send(m: Msg, fate: Fate) returns (ok: bool)
      requires connection.Some? ==> CanMeet(connection.value, fate)
      modifies this`connection
      ensures ok <==> connection.Some? && fate.Delivered?
      ensures connection == match old(connection)
                            case None => None
                            case Some(up) => Some(Session.Send(up, m, fate))
      ensures ok ==> connection.value.queue == old(connection.value.queue) + [m] && connection.value.broken == old(connection.value.broken)
      ensures connection.Some? && !ok ==> connection.value.broken
    {
      if connection.None? {
        return false;
      }
      var up := connection.value;
      match fate
      case Delivered =>
        connection := Some(Put(up, m));
        return true;
      case Failed(reached) =>
        connection := Some((if reached then Put(up, m) else up).(broken := true));
        return false;
    }

    /** Answers PortConnect. A positive answer goes out only once the writer is there for the
        data that may follow. */
    method Connect(u: Uuid, remote: Address, connects: bool, fate: Fate, ghost s: State)
      returns (task: Option<Channel>, ghost acts: seq<Action>)
      requires Valid() && Shows(s) && s.np.loop == Got(Msg.Connect(u, remote)) && CanMeet(s.up, fate)
      modifies this`portWriters, this`connection
      ensures Valid() && Legal(s, acts) && Shows(After(s, acts)) && After(s, acts).np.loop.Idle?
      ensures task.Some? <==> u in After(s, acts).np.chans && u !in s.np.chans
      ensures task.Some? <==> connects && u !in old(portWriters) && PortOrigin(FromAddress(remote)) in portForwardings
      ensures fate.Delivered? ==> connection == Some(Put(s.up, Connected(u, task.Some?)))
      ensures task.Some? ==> fresh(task.value) && portWriters[u] == task.value
    {
      acts := ConnectActs(s, connects, fate);
      ConnectLegal(s, connects, fate);
      HandledView(s, u, remote, connects, fate);
      task := StartFor(u, remote, connects, s);
      assert task.Some? ==> u in portWriters;
      var _ := Send(Connected(u, task.Some?), fate);
    }

    /** Looks the local address up and starts the task there; without an address, nothing. */
    method StartFor(u: Uuid, remote: Address, connects: bool, ghost s: State) returns (task: Option<Channel>)
      requires Valid() && Shows(s) && s.np.loop == Got(Msg.Connect(u, remote))
      modifies this`portWriters
      ensures Valid() && Shown(portWriters, if task.Some? then Session.Start(s.np, u) else s.np)
      ensures task.Some? <==> connects && u !in old(portWriters) && PortOrigin(FromAddress(remote)) in portForwardings
      ensures task.Some? ==> fresh(task.value) && u in portWriters && portWriters[u] == task.value
    {
      var origin := PortOrigin(FromAddress(remote));
      if origin !in portForwardings {
        task := None;
      } else {
        task := Start(u, portForwardings[origin], connects, DoConnect(s));
      }
    }

    /** PortReceive and PortClose. */
    method Receive(u: Uuid, item: PortTask.PortMessage, ghost s: State) returns (waits: bool)
      requires Reachable(s) && Valid() && Shows(s) && s.np.loop == Got(Port(u, item))
      modifies if u in portWriters then {portWriters[u]} else {}
      ensures Valid() && Shows(WithEnd(s, Np, PortDone(Np, s.np)))
      ensures PortDone(Np, s.np).loop == if waits then Blocked(u, item) else Idle
      ensures waits ==> u in portWriters && |portWriters[u].queue| >= Capacity(Np)
    {
      if u in portWriters {
        SessionTheorems.WritersHaveReceivers(s, Np, u);
      }
      var known;
      known, waits := PortMessage(u, item);
    }

    /** np's receive loop has a message. `connects` and `fate` tell how a connection attempt
        and a send end. What follows is a legal sequence of the session's steps, after which
        the loop is free again unless it waits for room in a channel. */
    method Message(m: Msg, connects: bool, fate: Fate, ghost s: State)
      returns (waits: bool, task: Option<Channel>, ghost acts: seq<Action>)
      requires Reachable(s) && Valid() && Shows(s) && s.np.loop == Got(m) && CanMeet(s.up, fate)
      requires m.Opened? || m.Refused? || m.Connect? || m.Port?
      modifies this`portForwardings, this`portWriters, this`connection,
               if m.Port? && m.uuid in portWriters then {portWriters[m.uuid]} else {}
      ensures Valid() && Legal(s, acts) && Shows(After(s, acts)) && Reachable(After(s, acts))
      ensures After(s, acts).np.loop == if m.Port? && waits then Blocked(m.uuid, m.msg) else Idle
      ensures waits ==> m.Port? && m.uuid in portWriters && |portWriters[m.uuid].queue| >= Capacity(Np)
      ensures task.Some? ==> m.Connect? && fresh(task.value) && m.uuid in portWriters && portWriters[m.uuid] == task.value
      ensures task.Some? <==> m.Connect? && m.uuid in After(s, acts).np.chans && m.uuid !in s.np.chans
    {
      waits, task := false, None;
      match m {
        case Opened(remote, local, _) =>
          var _ := PortRegister(remote, local, false);
          acts := [HandleOpened];
          OpenedLegal(s);
        case Refused =>
          acts := [HandleOpened];
          OpenedLegal(s);
        case Connect(u, remote) =>
          task, acts := Connect(u, remote, connects, fate, s);
        case Port(u, item) =>
          acts := PortActs(Np, s);
          PortLegal(Np, s);
          waits := Receive(u, item, s);
      }
      ReachableOn(s, acts);
    }
  }
}
