/** The server's record of a connected np: the tables of its `Client`, and what the session
    loop does with each message of np. */
module ServerClient {
  import opened Text
  import opened Addresses
  import opened PortTask
  import opened Session
  import opened Channels
  import opened Subdomain
  import opened SubdomainLaws
  import HttpRequests
  import SessionTheorems
  import SessionReplies

  /** `mpsc::channel(4)` in `serve_socket`. */
  const CHANNEL_SIZE: nat := 4

  /** The server's part in answering a PortOpen. */
  datatype Settings = Settings(lower: Lowercase, text: Ip6Text, hostnames: Hostnames)

  /** The address of a port on the TCP hostname. */
  function TcpAddress(settings: Settings, port: Port): Addr {
    FromHostAndPort(settings.text, settings.hostnames.tcpHostname, port)
  }

  /** The port to bind; 0 leaves the choice to the system. */
  function RequestedPort(requested: Option<Address>): Port {
    if requested.Some? then FromAddress(requested.value).port else 0
  }

  function Validated(settings: Settings, requested: Option<Address>): Option<PortOpenError> {
    ValidateOpen(settings.lower, settings.hostnames, requested)
  }

  /** The port that is opened, given what binding the requested one comes to. */
  function PortFor(settings: Settings, requested: Option<Address>, bound: Option<Port>): Option<Port> {
    if Validated(settings, requested).Some? then None else bound
  }

  class Client {
    var hostnames: set<string>
    var httpRequests: map<string, Oneshot<HttpRequests.Payload>>
    var connectRequests: map<Uuid, Oneshot<bool>>
    var openPorts: seq<Port>
    var portWriters: map<Uuid, Channel>
    var down: Wire

    ghost predicate Valid()
      reads this, portWriters.Values
    {
      Apart(httpRequests) && Apart(connectRequests) && AreWriters(portWriters, CHANNEL_SIZE)
    }

    /** The tables are those of the server in `s`. */
    ghost predicate Shows(s: State)
      reads this, portWriters.Values
    {
      && Shown(portWriters, s.srv)
      && s.pending == connectRequests.Keys
      && s.down == down
      && |s.listeners| == |openPorts| && (forall l :: 0 <= l < |openPorts| ==> s.listeners[l].port == openPorts[l])
    }

    /** The pending map is that of client `c` in `h`, and a oneshot still has its receiver
        while its visitor waits. */
    ghost predicate ShowsRequests(h: HttpRequests.State, c: HttpRequests.ClientId)
      reads this, httpRequests.Values
    {
      && c in h.pending && h.pending[c] == httpRequests.Keys
      && (forall id :: id in httpRequests ==> (
            && id in h.requests && httpRequests[id].value == None
            && (httpRequests[id].waited <==> h.requests[id].outcome.Waiting?)))
    }

    constructor ()
      ensures Valid() && hostnames == {} && httpRequests == map[] && forall host :: Shows(Init(host))
    {
      hostnames, httpRequests, connectRequests, openPorts, portWriters, down := {}, map[], map[], [], map[], NewWire;
    }

    // ---------- hostnames

    method AddHttpHostname(host: string) returns (added: bool)
      modifies this`hostnames
      ensures hostnames == old(hostnames) + {host} && added == (host !in old(hostnames))
    {
      added := host !in hostnames;
      hostnames := hostnames + {host};
    }

    method RemoveHttpHostname(host: string) returns (removed: bool)
      modifies this`hostnames
      ensures hostnames == old(hostnames) - {host} && removed == (host in old(hostnames))
    {
      removed := host in hostnames;
      hostnames := hostnames - {host};
    }

    // ---------- HTTP requests

    /** `id` is fresh, as uuids are. */
    method RegisterHttpRequest(id: string, ghost h: HttpRequests.State, ghost c: HttpRequests.ClientId)
      returns (rx: Oneshot<HttpRequests.Payload>)
      requires Valid() && ShowsRequests(h, c) && id !in h.requests
      modifies this`httpRequests
      ensures Valid() && ShowsRequests(HttpRequests.Do(h, HttpRequests.Enqueue(id, c)), c)
      ensures fresh(rx) && httpRequests == old(httpRequests)[id := rx]
    {
      rx := new Oneshot();
      httpRequests := httpRequests[id := rx];
    }

    /** Completes the oneshot with this id and no other; false ends the session. */
    method SendHttpResponse(id: string, payload: HttpRequests.Payload, ghost h: HttpRequests.State, ghost c: HttpRequests.ClientId)
      returns (ok: bool)
      requires Valid() && ShowsRequests(h, c)
      modifies this`httpRequests, if id in httpRequests then {httpRequests[id]} else {}
      ensures Valid() && ShowsRequests(HttpRequests.Respond(h, c, id, payload), c)
      ensures httpRequests == old(httpRequests) - {id}
      ensures ok <==> id in old(httpRequests)
      ensures !ok ==> c in HttpRequests.Respond(h, c, id, payload).ended
      ensures ok ==> old(httpRequests[id]).value == (if h.requests[id].outcome.Waiting? then Some(payload) else None)
    {
      ok := id in httpRequests;
      if ok {
        var tx := httpRequests[id];
        httpRequests := httpRequests - {id};
        tx.Complete(payload);
      }
    }

    // ---------- connection requests

    method RegisterConnectRequest(u: Uuid) returns (rx: Oneshot<bool>)
      requires Valid()
      modifies this`connectRequests
      ensures Valid() && fresh(rx) && rx.value == None && rx.waited
      ensures connectRequests == old(connectRequests)[u := rx]
    {
      rx := new Oneshot();
      connectRequests := connectRequests[u := rx];
    }

    method SendConnectedResponse(u: Uuid, accepted: bool) returns (ok: bool)
      requires Valid()
      modifies this`connectRequests, if u in connectRequests then {connectRequests[u]} else {}
      ensures Valid() && connectRequests == old(connectRequests) - {u}
      ensures ok <==> u in old(connectRequests)
      ensures ok && old(connectRequests[u].waited) ==> old(connectRequests[u]).value == Some(accepted)
    {
      ok := u in connectRequests;
      if ok {
        var tx := connectRequests[u];
        connectRequests := connectRequests - {u};
        tx.Complete(accepted);
      }
    }

    // ---------- port writers

    method PortWriterRegister(u: Uuid, sender: Channel) returns (ok: bool)
      modifies this`portWriters
      ensures ok <==> u !in old(portWriters)
      ensures portWriters == if ok then old(portWriters)[u := sender] else old(portWriters)
    {
      ok := u !in portWriters;
      if ok {
        portWriters := portWriters[u := sender];
      }
    }

    method PortWriterRemove(u: Uuid, ghost s: State)
      requires Valid() && Shows(s) && CanDo(s, ServerTask(u, Unregister))
      modifies this`portWriters
      ensures Valid() && Shows(Do(s, ServerTask(u, Unregister))) && u !in portWriters
    {
      portWriters := portWriters - {u};
      assert Contents(portWriters) == old(Contents(portWriters)) - {u};
    }

    /** Hands a message to the task of `u`, if its writer is registered and its receiver is
        still there; `full` when that must wait. */
    method PortMessage(u: Uuid, m: PortMessage) returns (ok: bool, full: bool)
      requires Valid()
      modifies if u in portWriters then {portWriters[u]} else {}
      ensures Valid() && (full ==> ok)
      ensures ok <==> u in portWriters && !old(portWriters[u].dropped)
      ensures full <==> ok && |old(portWriters[u].queue)| >= CHANNEL_SIZE
      ensures u in portWriters ==> portWriters[u].dropped == old(portWriters[u].dropped)
      ensures Contents(portWriters) ==
              if ok && !full then old(Contents(portWriters))[u := old(portWriters[u].queue) + [m]]
              else old(Contents(portWriters))
    {
      if u !in portWriters {
        return false, false;
      }
      var gone;
      gone, full := portWriters[u].Send(m);
      ok := !gone;
    }

    method Send(m: Msg, fate: Fate) returns (ok: bool)
      requires CanMeet(down, fate)
      modifies this`down
      ensures down == Session.Send(old(down), m, fate) && ok == fate.Delivered?
      ensures if ok then down.queue == old(down.queue) + [m] && down.broken == old(down.broken) else down.broken
    {
      match fate
      case Delivered =>
        down := Put(down, m);
        return true;
      case Failed(reached) =>
        down := (if reached then Put(down, m) else down).(broken := true);
        return false;
    }

    // ---------- serve_socket, until its task runs

    /** A connection has been accepted at listener `l`, whose address is `remote`: asks np to
        connect. The task's channel is there from the start, its writer not yet registered. */
    method ServeSocket(u: Uuid, l: nat, remote: Addr, fate: Fate, ghost s: State)
      returns (messages: Channel, rx: Oneshot<bool>, asked: bool)
      requires Valid() && Shows(s) && CanDo(s, Accept(l, u)) && remote == Remote(s, l) && CanMeet(down, fate)
      modifies this`connectRequests, this`down
      ensures Valid() && Legal(s, [Accept(l, u), AskNp(l, fate)]) && Shows(After(s, [Accept(l, u), AskNp(l, fate)]))
      ensures After(s, [Accept(l, u), AskNp(l, fate)]).listeners[l].phase == if asked then Waiting(u) else Stopped(Some(u))
      ensures fresh(messages) && messages.capacity == CHANNEL_SIZE && messages.queue == [] && !messages.dropped
      ensures fresh(rx) && rx.value == None && rx.waited && connectRequests == old(connectRequests)[u := rx]
    {
      AskLegal(s, u, l, fate);
      messages := new Channel(CHANNEL_SIZE);
      rx := RegisterConnectRequest(u);
      asked := Send(Msg.Connect(u, ToAddress(remote)), fate);
    }

    /** The reply has come: only a positive one leads to a registered writer and a task. */
    method ServeReply(u: Uuid, l: nat, messages: Channel, accepted: bool, ghost s: State) returns (runs: bool)
      requires Valid() && Shows(s) && CanDo(s, Resume(l)) && s.listeners[l].phase == Replied(u, accepted)
      requires messages.capacity == CHANNEL_SIZE && messages.queue == [] && !messages.dropped
      requires messages !in portWriters.Values
      modifies this`portWriters
      ensures Valid() && Shows(DoResume(s, l))
      ensures runs <==> accepted && u !in old(portWriters)
      ensures runs ==> u in portWriters && portWriters[u] == messages
      ensures DoResume(s, l).srv.tasks == if runs then s.srv.tasks[u := NewTask] else s.srv.tasks
    {
      if !accepted {
        return false;
      }
      runs := PortWriterRegister(u, messages);
      if runs {
        assert Contents(portWriters) == old(Contents(portWriters))[u := []];
      }
    }

    // ---------- the session loop

    /** PortOpen: a request for an address that may not be asked for, or whose port cannot be
        bound, is refused; otherwise the port that was bound is recorded and announced, with
        the TCP hostname. */
    method Open(local: Addr, settings: Settings, requested: Option<Address>, bound: Option<Port>, fate: Fate, ghost s: State)
      returns (ok: bool, error: Option<PortOpenError>)
      requires Valid() && Shows(s) && s.srv.loop == Got(Msg.Open(local)) && s.host == TcpAddress(settings, 0).host
      requires bound.Some? && RequestedPort(requested) != 0 ==> bound.value == RequestedPort(requested)
      requires CanDo(s, Bind(bound)) && CanMeet(down, fate)
      modifies this`openPorts, this`down
      ensures Valid() && Shows(AfterOpen(s, PortFor(settings, requested, bound), fate))
      ensures AfterOpen(s, PortFor(settings, requested, bound), fate).srv.loop == if ok then Idle else Dead
      ensures error.Some? ==> openPorts == old(openPorts)
      ensures error.None? ==> bound.Some? && openPorts == old(openPorts) + [bound.value]
                              && RequestedPort(requested) in {0, bound.value}
      ensures error == Some(PortNotAllowed) <==> requested.Some? && 1 <= requested.value.port <= 1023
      ensures error == Some(HostNotAllowed) <==>
                requested.Some? && !(1 <= requested.value.port <= 1023) && requested.value.host.Some?
                && !NamesTcp(settings.lower, settings.hostnames, requested.value.host.value)
      ensures error == Some(InUse) ==> bound.None?
    {
      error := ValidateOpen(settings.lower, settings.hostnames, requested);
      ValidateOpenIff(settings.lower, settings.hostnames, requested);
      ok := AnswerOpen(local, settings, if error.Some? then None else bound, fate, s);
      if error.None? && bound.None? {
        error := Some(InUse);
      }
    }

    /** Records and announces the port, if there is one; refuses otherwise. */
    method AnswerOpen(local: Addr, settings: Settings, port: Option<Port>, fate: Fate, ghost s: State) returns (ok: bool)
      requires Valid() && Shows(s) && s.srv.loop == Got(Msg.Open(local)) && s.host == TcpAddress(settings, 0).host
      requires CanDo(s, Bind(port)) && CanMeet(down, fate)
      modifies this`openPorts, this`down
      ensures Valid() && Shows(AfterOpen(s, port, fate))
      ensures AfterOpen(s, port, fate).srv.loop == if ok then Idle else Dead
      ensures openPorts == if port.Some? then old(openPorts) + [port.value] else old(openPorts)
    {
      if port.None? {
        ok := Send(Refused, fate);
      } else {
        openPorts := openPorts + [port.value];
        ok := Send(Msg.Opened(ToAddress(TcpAddress(settings, port.value)), local, |openPorts| - 1), fate);
      }
    }

    /** PortConnected: passes the reply on to who asked. */
    method Connected(u: Uuid, accepted: bool, ghost s: State) returns (ok: bool)
      requires Valid() && Shows(s) && s.srv.loop == Got(Msg.Connected(u, accepted))
      modifies this`connectRequests, if u in connectRequests then {connectRequests[u]} else {}
      ensures Valid() && Shows(DoConnected(s))
      ensures DoConnected(s).srv.loop == if ok then Idle else Dead
      ensures ok <==> u in s.pending
      ensures ok && old(connectRequests[u].waited) ==> old(connectRequests[u]).value == Some(accepted)
      ensures ok && SessionReplies.IsAwaited(s, u) && old(connectRequests[u].waited) ==>
                DoConnected(s).listeners[s.owner[u]].phase == Replied(u, old(connectRequests[u]).value == Some(true))
    {
      ok := SendConnectedResponse(u, accepted);
      ConnectedView(s);
      if ok && SessionReplies.IsAwaited(s, u) {
        SessionReplies.TellsWaiter(s, s.owner[u], u, accepted);
      }
    }

    /** PortReceive and PortClose. */
    method Receive(u: Uuid, item: PortTask.PortMessage, ghost s: State) returns (ok: bool, waits: bool)
      requires Reachable(s) && Valid() && Shows(s) && s.srv.loop == Got(Port(u, item))
      modifies if u in portWriters then {portWriters[u]} else {}
      ensures Valid() && Shows(WithEnd(s, Server, PortDone(Server, s.srv)))
      ensures PortDone(Server, s.srv).loop == if !ok then Dead else if waits then Blocked(u, item) else Idle
      ensures ok <==> u in s.srv.chans
    {
      if u in portWriters {
        SessionTheorems.WritersHaveReceivers(s, Server, u);
      }
      ok, waits := PortMessage(u, item);
    }

    /** The session loop has a message. What follows is a legal sequence of the session's
        steps; afterwards the loop is free, waits for room in a channel, or, with `ok` false,
        is over: an answer could not be sent, or nobody is there for that data. A reply
        always reaches who asked. */
    method Message(m: Msg, settings: Settings, requested: Option<Address>, bound: Option<Port>, fate: Fate, ghost s: State)
      returns (ok: bool, waits: bool, ghost acts: seq<Action>)
      requires Reachable(s) && Valid() && Shows(s) && s.srv.loop == Got(m) && CanMeet(down, fate)
      requires s.host == TcpAddress(settings, 0).host
      requires m.Open? || m.Connected? || m.Port?
      requires m.Open? ==> CanDo(s, Bind(bound))
      requires bound.Some? && RequestedPort(requested) != 0 ==> bound.value == RequestedPort(requested)
      modifies this`openPorts, this`connectRequests, this`down,
               if m.Port? && m.uuid in portWriters then {portWriters[m.uuid]} else {},
               if m.Connected? && m.uuid in connectRequests then {connectRequests[m.uuid]} else {}
      ensures Valid() && Legal(s, acts) && Shows(After(s, acts)) && Reachable(After(s, acts))
      ensures After(s, acts).srv.loop == if !ok then Dead else if m.Port? && waits then Blocked(m.uuid, m.msg) else Idle
      ensures m.Open? && requested.Some? && 1 <= requested.value.port <= 1023 ==> openPorts == old(openPorts)
      ensures m.Open? ==> acts[0] == Bind(PortFor(settings, requested, bound)) && (ok <==> fate.Delivered?)
      ensures m.Connected? ==> ok && m.uuid in old(connectRequests)
      ensures m.Connected? && old(connectRequests[m.uuid].waited) ==>
                old(connectRequests[m.uuid]).value == Some(m.ok)
      ensures m.Port? ==> (ok <==> m.uuid in s.srv.chans)
    {
      waits := false;
      match m {
        case Open(local) =>
          var port := PortFor(settings, requested, bound);
          acts := [Bind(port), Announce(fate)];
          OpenLegal(s, port, fate);
          var error;
          ok, error := Open(local, settings, requested, bound, fate, s);
        case Connected(u, accepted) =>
          acts := [HandleConnected];
          ConnectedLegal(s);
          SessionReplies.ReplyFindsWhoAsked(s, u, accepted);
          ok := Connected(u, accepted, s);
        case Port(u, item) =>
          acts := PortActs(Server, s);
          PortLegal(Server, s);
          ok, waits := Receive(u, item, s);
      }
      ReachableOn(s, acts);
    }
  }

  // ---------- what handling one message amounts to

  lemma AskLegal(s: State, u: Uuid, l: nat, fate: Fate)
    requires CanDo(s, Accept(l, u)) && CanMeet(s.down, fate)
    ensures var acts := [Accept(l, u), AskNp(l, fate)];
            Legal(s, acts) && After(s, acts) == DoAsk(DoAccept(s, l, u), l, fate)
  {
    Two(s, Accept(l, u), AskNp(l, fate));
  }

  function AfterOpen(s: State, port: Option<Port>, fate: Fate): State
    requires s.srv.loop.Got? && s.srv.loop.msg.Open?
  {
    var s' := DoBind(s, port);
    s'.(down := Session.Send(s'.down, s'.srv.loop.answer, fate), srv := s'.srv.(loop := if fate.Delivered? then Idle else Dead))
  }

  lemma OpenLegal(s: State, port: Option<Port>, fate: Fate)
    requires CanDo(s, Bind(port)) && CanMeet(s.down, fate)
    ensures var acts := [Bind(port), Announce(fate)]; Legal(s, acts) && After(s, acts) == AfterOpen(s, port, fate)
  {
    Two(s, Bind(port), Announce(fate));
  }

  lemma ConnectedLegal(s: State)
    requires CanDo(s, HandleConnected)
    ensures Legal(s, [HandleConnected]) && After(s, [HandleConnected]) == DoConnected(s)
  {
    One(s, HandleConnected);
  }
}
