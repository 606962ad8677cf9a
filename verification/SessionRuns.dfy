/** What a session can do: ports can be opened, connections made, and any data carried either
    way and closed. The theorems about what a session never does are not about nothing. */
module SessionRuns {
  import opened Text
  import opened Addresses
  import opened PortTask
  import opened Session
  import opened SessionTheorems

  /** Both loops are free and nothing is on the wire. */
  predicate Quiet(s: State) {
    && s.srv.loop == Idle && s.np.loop == Idle && !s.srv.released && !s.np.released
    && s.down.queue == [] && s.up.queue == [] && !s.down.broken && !s.up.broken
  }

  /** The wire after a message has come through. */
  function Passed(w: Wire, m: Msg): Wire {
    w.(log := w.log + [m])
  }

  lemma Then(s: State, a: Action, acts: seq<Action>)
    requires CanDo(s, a) && Legal(Do(s, a), acts)
    ensures Legal(s, [a] + acts) && After(s, [a] + acts) == After(Do(s, a), acts)
  {
    assert ([a] + acts)[1..] == acts;
  }

  // ---------- a port is opened

  lemma RequestArrives(s: State, local: Addr)
    requires Quiet(s)
    ensures var acts := [RequestPort(local, Delivered), ReceiveMsg(Server)];
            Legal(s, acts) && After(s, acts) == s.(up := Passed(s.up, Open(local)), srv := s.srv.(loop := Got(Open(local))))
  {
    var s1 := Do(s, RequestPort(local, Delivered));
    assert s1.up.queue == [Open(local)] && s1.up.queue[1..] == [];
    Two(s, RequestPort(local, Delivered), ReceiveMsg(Server));
  }

  /** The state once the server has opened `port` for a request and np knows it. */
  function WithPort(s: State, local: Addr, port: Port): State {
    var l := |s.listeners|;
    var remote := ToAddress(Addr(s.host, port));
    var key := PortOrigin(FromAddress(remote));
    s.(listeners := s.listeners + [Listener(port, local, Accepting, false)],
       down := Passed(s.down, Opened(remote, local, l)),
       announced := s.announced + {l},
       forwardings := if key in s.forwardings then s.forwardings else s.forwardings[key := local])
  }

  lemma PortOpens(s: State, local: Addr, port: Port)
    requires Quiet(s) && 0 < port && PortFree(s, port)
    ensures var t := s.(srv := s.srv.(loop := Got(Open(local))));
            var acts := [Bind(Some(port)), Announce(Delivered), ReceiveMsg(Np)];
            Legal(t, acts) && After(t, acts) ==
              WithPort(s, local, port).(announced := s.announced, forwardings := s.forwardings,
                np := s.np.(loop := Got(Opened(ToAddress(Addr(s.host, port)), local, |s.listeners|))))
  {
    var t := s.(srv := s.srv.(loop := Got(Open(local))));
    var t1 := Do(t, Bind(Some(port)));
    var t2 := Do(t1, Announce(Delivered));
    assert t2.down.queue == [t1.srv.loop.answer] && t2.down.queue[1..] == [];
    Three(t, Bind(Some(port)), Announce(Delivered), ReceiveMsg(Np));
  }

  /** From any quiet state np can have a port opened. */
  lemma OpensPort(s: State, local: Addr, port: Port) returns (acts: seq<Action>)
    requires Quiet(s) && 0 < port && PortFree(s, port)
    ensures Legal(s, acts) && After(s, acts) == WithPort(s, local, port).(up := Passed(s.up, Open(local)))
  {
    var a1 := [RequestPort(local, Delivered), ReceiveMsg(Server)];
    var a2 := [Bind(Some(port)), Announce(Delivered), ReceiveMsg(Np)];
    RequestArrives(s, local);
    var s1 := s.(up := Passed(s.up, Open(local)));
    PortOpens(s1, local, port);
    var s2 := After(After(s, a1), a2);
    One(s2, HandleOpened);
    AfterConcat(s, a1, a2);
    AfterConcat(s, a1 + a2, [HandleOpened]);
    acts := a1 + a2 + [HandleOpened];
  }

  // ---------- a connection is made

  lemma AsksNp(s: State, l: nat, u: Uuid)
    requires Quiet(s) && l < |s.listeners| && s.listeners[l].phase == Accepting && u !in s.owner
    ensures var acts := [Accept(l, u), AskNp(l, Delivered), ReceiveMsg(Np)];
            var m := Connect(u, ToAddress(Remote(s, l)));
            Legal(s, acts) && After(s, acts) ==
              SetPhase(s, l, Waiting(u)).(pending := s.pending + {u}, owner := s.owner[u := l],
                down := Passed(s.down, m), np := s.np.(loop := Got(m)))
  {
    var s1 := Do(s, Accept(l, u));
    var s2 := Do(s1, AskNp(l, Delivered));
    assert s2.down.queue == [Connect(u, ToAddress(Remote(s, l)))] && s2.down.queue[1..] == [];
    assert s2.listeners == SetPhase(s, l, Waiting(u)).listeners;
    Three(s, Accept(l, u), AskNp(l, Delivered), ReceiveMsg(Np));
  }

  lemma NpAnswers(s: State, u: Uuid, remote: Address)
    requires s.np.loop == Got(Connect(u, remote)) && s.srv.loop == Idle && u !in s.np.chans
    requires s.up.queue == [] && !s.up.broken && PortOrigin(FromAddress(remote)) in s.forwardings
    ensures var acts := [HandleConnect, Dial(true), Reply(Delivered)];
            var local := s.forwardings[PortOrigin(FromAddress(remote))];
            Legal(s, acts) && After(s, acts) ==
              s.(np := Start(s.np, u).(loop := Idle), dialled := s.dialled[u := local],
                 up := Put(s.up, Connected(u, true)))
  {
    Three(s, HandleConnect, Dial(true), Reply(Delivered));
  }

  lemma ServerResumes(s: State, l: nat, u: Uuid)
    requires s.srv.loop == Idle && s.up.queue == [Connected(u, true)] && !s.up.broken
    requires u in s.pending && u in s.owner && s.owner[u] == l && l < |s.listeners| && s.listeners[l].phase == Waiting(u)
    requires u !in s.srv.chans
    ensures var acts := [ReceiveMsg(Server), HandleConnected, Resume(l)];
            Legal(s, acts) && After(s, acts) ==
              SetPhase(s, l, Accepting).(srv := Start(s.srv, u), pending := s.pending - {u},
                confirmed := s.confirmed + {u}, up := s.up.(queue := []))
  {
    var s1 := Do(s, ReceiveMsg(Server));
    assert s1.up.queue == [];
    var s2 := Do(s1, HandleConnected);
    assert s2.listeners == s.listeners[l := s.listeners[l].(phase := Replied(u, true))];
    var s3 := Do(s2, Resume(l));
    assert s3.listeners == SetPhase(s, l, Accepting).listeners;
    Three(s, ReceiveMsg(Server), HandleConnected, Resume(l));
  }

  /** A connection whose two tasks wait for what comes. */
  predicate Calm(s: State, u: Uuid) {
    && Quiet(s)
    && u in s.srv.tasks && s.srv.tasks[u].phase == Selecting && !s.srv.tasks[u].cutOff && u in s.srv.chans && s.srv.chans[u] == []
    && u in s.np.tasks && s.np.tasks[u].phase == Selecting && !s.np.tasks[u].cutOff && u in s.np.chans && s.np.chans[u] == []
  }

  /** From any quiet state a listener that np knows of can take a connection to the end. */
  lemma MakesConnection(s: State, l: nat, u: Uuid, local: Addr) returns (acts: seq<Action>)
    requires Quiet(s) && l < |s.listeners| && s.listeners[l].phase == Accepting && u !in s.owner
    requires u !in s.srv.chans && u !in s.np.chans
    requires var key := PortOrigin(FromAddress(ToAddress(Remote(s, l)))); key in s.forwardings && s.forwardings[key] == local
    ensures Legal(s, acts) && var s' := After(s, acts);
            && Calm(s', u) && s'.srv.tasks == s.srv.tasks[u := NewTask] && s'.np.tasks == s.np.tasks[u := NewTask]
            && s'.dialled == s.dialled[u := local] && s'.listeners == s.listeners && s'.forwardings == s.forwardings
  {
    var a1 := [Accept(l, u), AskNp(l, Delivered), ReceiveMsg(Np)];
    var a2 := [HandleConnect, Dial(true), Reply(Delivered)];
    var a3 := [ReceiveMsg(Server), HandleConnected, Resume(l)];
    AsksNp(s, l, u);
    var s1 := After(s, a1);
    NpAnswers(s1, u, ToAddress(Remote(s, l)));
    var s2 := After(s1, a2);
    assert s2.up.queue == [Connected(u, true)];
    ServerResumes(s2, l, u);
    var s3 := After(s2, a3);
    assert s3.listeners == s.listeners;
    AfterConcat(s, a1, a2);
    AfterConcat(s, a1 + a2, a3);
    acts := a1 + a2 + a3;
  }

  // ---------- data is carried

  /** The wire that `side` sends on. */
  function Out(s: State, side: Side): Wire {
    if side.Server? then s.down else s.up
  }

  function WithOut(s: State, side: Side, w: Wire): State {
    if side.Server? then s.(down := w) else s.(up := w)
  }

  function Other(side: Side): Side {
    if side.Server? then Np else Server
  }

  function Turn(side: Side, u: Uuid, ev: Event): Action {
    if side.Server? then ServerTask(u, ev) else NpTask(u, ev)
  }

  lemma Turns(side: Side, s: State, u: Uuid, ev: Event)
    requires TaskEnabled(side, EndOf(s, side), Out(s, side), u, ev)
    ensures CanDo(s, Turn(side, u, ev))
    ensures Do(s, Turn(side, u, ev)) ==
            WithOut(WithEnd(s, side, TaskEnd(side, EndOf(s, side), u, ev)), side, TaskWire(EndOf(s, side), Out(s, side), u, ev))
  {
  }

  function ToldOf(data: seq<Byte>): PortMessage {
    if data == [] then Close else Data(data)
  }

  /** A task that waits reads its socket and puts what it read on the websocket. */
  function HasSent(t: Task, data: seq<Byte>): Task {
    t.(read := t.read + data, eof := t.eof || data == [], sent := t.sent + [ToldOf(data)],
       phase := if data == [] then Leaving(HitEof) else Selecting)
  }

  /** The side has its task for `u`, which waits, and its loop is free. */
  predicate Waits(e: End, u: Uuid) {
    && e.loop == Idle && !e.released && u in e.chans && e.chans[u] == []
    && u in e.tasks && e.tasks[u].phase == Selecting && !e.tasks[u].cutOff
  }

  function EndSent(e: End, u: Uuid, data: seq<Byte>): End
    requires u in e.tasks
  {
    e.(tasks := e.tasks[u := HasSent(e.tasks[u], data)])
  }

  lemma SendsEnd(side: Side, e: End, w: Wire, u: Uuid, data: seq<Byte>)
    requires Waits(e, u) && !w.broken && |data| <= 512
    ensures TaskEnabled(side, e, w, u, Read(data, true)) && TaskWire(e, w, u, Read(data, true)) == w
    ensures var e1 := TaskEnd(side, e, u, Read(data, true));
            && TaskEnabled(side, e1, w, u, SendOk) && TaskEnd(side, e1, u, SendOk) == EndSent(e, u, data)
            && TaskWire(e1, w, u, SendOk) == Put(w, Port(u, ToldOf(data)))
  {
    var e1 := TaskEnd(side, e, u, Read(data, true));
    assert TaskEnd(side, e1, u, SendOk).tasks == EndSent(e, u, data).tasks;
  }

  lemma Sends(side: Side, s: State, u: Uuid, data: seq<Byte>)
    requires Waits(EndOf(s, side), u) && !Out(s, side).broken && |data| <= 512
    ensures var acts := [Turn(side, u, Read(data, true)), Turn(side, u, SendOk)];
            Legal(s, acts) && After(s, acts) ==
              WithOut(WithEnd(s, side, EndSent(EndOf(s, side), u, data)), side, Put(Out(s, side), Port(u, ToldOf(data))))
  {
    SendsEnd(side, EndOf(s, side), Out(s, side), u, data);
    Turns(side, s, u, Read(data, true));
    var s1 := Do(s, Turn(side, u, Read(data, true)));
    Turns(side, s1, u, SendOk);
    Two(s, Turn(side, u, Read(data, true)), Turn(side, u, SendOk));
  }

  /** The loop takes the only message on the wire and hands it over. */
  lemma Comes(side: Side, s: State, u: Uuid, m: PortMessage)
    requires EndOf(s, side).loop == Idle && u in EndOf(s, side).chans && EndOf(s, side).chans[u] == []
    requires Out(s, Other(side)).queue == [Port(u, m)]
    ensures var acts := [ReceiveMsg(side), DispatchMsg(side), PushMsg(side)];
            var e, w := EndOf(s, side), Out(s, Other(side));
            Legal(s, acts) && After(s, acts) == WithOut(WithEnd(s, side, e.(chans := e.chans[u := [m]])), Other(side), w.(queue := []))
  {
    var s1 := Do(s, ReceiveMsg(side));
    assert Out(s1, Other(side)).queue == [];
    assert EndOf(s1, side) == EndOf(s, side).(loop := Got(Port(u, m)));
    var s2 := Do(s1, DispatchMsg(side));
    assert EndOf(s2, side) == EndOf(s, side).(loop := Blocked(u, m));
    assert EndOf(s, side).chans[u] + [m] == [m];
    Three(s, ReceiveMsg(side), DispatchMsg(side), PushMsg(side));
  }

  /** A task that waits takes a message of data and writes it to its socket, or a close and
      leaves. */
  function HasTaken(t: Task, m: PortMessage): Task {
    t.(got := t.got + [m], written := t.written + Payload(m), phase := if m.Close? then Leaving(GotClose) else Selecting)
  }

  function EndTaken(e: End, u: Uuid, m: PortMessage): End
    requires u in e.tasks
  {
    e.(tasks := e.tasks[u := HasTaken(e.tasks[u], m)], chans := e.chans[u := []])
  }

  lemma TakesEnd(side: Side, e: End, w: Wire, u: Uuid, m: PortMessage)
    requires u in e.tasks && e.tasks[u].phase == Selecting && u in e.chans && e.chans[u] == [m]
    requires m.Data? ==> m.data != []
    ensures TaskEnabled(side, e, w, u, Dequeue(m)) && TaskWire(e, w, u, Dequeue(m)) == w
    ensures var e1 := TaskEnd(side, e, u, Dequeue(m));
            if m.Close? then e1 == EndTaken(e, u, m)
            else
              && TaskEnabled(side, e1, w, u, Write(|m.data|)) && TaskWire(e1, w, u, Write(|m.data|)) == w
              && TaskEnd(side, e1, u, Write(|m.data|)) == EndTaken(e, u, m)
  {
    var e1 := TaskEnd(side, e, u, Dequeue(m));
    assert e1.chans == EndTaken(e, u, m).chans;
    if m.Data? {
      assert m.data[..|m.data|] == m.data && m.data[|m.data|..] == [];
      assert TaskEnd(side, e1, u, Write(|m.data|)).tasks == EndTaken(e, u, m).tasks;
    } else {
      assert e.tasks[u].written + [] == e.tasks[u].written;
    }
  }

  function TakeActs(side: Side, u: Uuid, m: PortMessage): seq<Action> {
    if m.Close? then [Turn(side, u, Dequeue(m))] else [Turn(side, u, Dequeue(m)), Turn(side, u, Write(|m.data|))]
  }

  lemma Takes(side: Side, s: State, u: Uuid, m: PortMessage)
    requires var e := EndOf(s, side);
             u in e.tasks && e.tasks[u].phase == Selecting && u in e.chans && e.chans[u] == [m]
    requires m.Data? ==> m.data != []
    ensures Legal(s, TakeActs(side, u, m)) && After(s, TakeActs(side, u, m)) == WithEnd(s, side, EndTaken(EndOf(s, side), u, m))
  {
    TakesEnd(side, EndOf(s, side), Out(s, side), u, m);
    Turns(side, s, u, Dequeue(m));
    if m.Close? {
      One(s, Turn(side, u, Dequeue(m)));
    } else {
      var s1 := Do(s, Turn(side, u, Dequeue(m)));
      Turns(side, s1, u, Write(|m.data|));
      Two(s, Turn(side, u, Dequeue(m)), Turn(side, u, Write(|m.data|)));
    }
  }

  /** One chunk, or the end, goes from `side` to its peer. */
  lemma Carries(side: Side, s: State, u: Uuid, data: seq<Byte>) returns (acts: seq<Action>)
    requires Calm(s, u) && |data| <= 512
    ensures Legal(s, acts) && var s', peer := After(s, acts), Other(side);
            && EndOf(s', side) == EndSent(EndOf(s, side), u, data)
            && EndOf(s', peer) == EndTaken(EndOf(s, peer), u, ToldOf(data))
            && s'.down.queue == [] && s'.up.queue == [] && !s'.down.broken && !s'.up.broken && s'.dialled == s.dialled
  {
    var peer, m := Other(side), ToldOf(data);
    var a1 := [Turn(side, u, Read(data, true)), Turn(side, u, SendOk)];
    Sends(side, s, u, data);
    var a2 := Arrives(peer, After(s, a1), u, m);
    AfterConcat(s, a1, a2);
    acts := a1 + a2;
  }

  /** The only message on the wire comes to its task, which takes it. */
  lemma Arrives(side: Side, s: State, u: Uuid, m: PortMessage) returns (acts: seq<Action>)
    requires var e := EndOf(s, side);
             e.loop == Idle && u in e.chans && e.chans[u] == [] && u in e.tasks && e.tasks[u].phase == Selecting
    requires Out(s, Other(side)).queue == [Port(u, m)] && (m.Data? ==> m.data != [])
    ensures Legal(s, acts)
    ensures After(s, acts) ==
            WithOut(WithEnd(s, side, EndTaken(EndOf(s, side), u, m)), Other(side), Out(s, Other(side)).(queue := []))
  {
    var a1 := [ReceiveMsg(side), DispatchMsg(side), PushMsg(side)];
    var a2 := TakeActs(side, u, m);
    Comes(side, s, u, m);
    var s1 := After(s, a1);
    Takes(side, s1, u, m);
    assert EndOf(s1, side).chans[u := []] == EndOf(s, side).chans[u := []];
    AfterConcat(s, a1, a2);
    acts := a1 + a2;
  }

  // ---------- a whole conversation

  /** What is said: chunks, each by one of the sides. */
  datatype Chunk = Chunk(from: Side, data: seq<Byte>)

  predicate AreChunks(said: seq<Chunk>) {
    forall i :: 0 <= i < |said| ==> 1 <= |said[i].data| <= 512
  }

  /** All that `side` says. */
  function SaidBy(said: seq<Chunk>, side: Side): seq<Byte> {
    if said == [] then [] else (if said[0].from == side then said[0].data else []) + SaidBy(said[1..], side)
  }

  /** From `s` to `s'`, each side has written what the other said. */
  ghost predicate Heard(s: State, s': State, u: Uuid, said: seq<Chunk>) {
    && s'.dialled == s.dialled
    && (forall side :: WrittenBy(EndOf(s', side), u) == WrittenBy(EndOf(s, side), u) + SaidBy(said, Other(side)))
  }

  lemma HeardMore(s: State, s1: State, s2: State, u: Uuid, said: seq<Chunk>)
    requires said != [] && Heard(s, s1, u, [said[0]]) && Heard(s1, s2, u, said[1..])
    ensures Heard(s, s2, u, said)
  {
    forall side ensures WrittenBy(EndOf(s2, side), u) == WrittenBy(EndOf(s, side), u) + SaidBy(said, Other(side)) {
      HeardOn(WrittenBy(EndOf(s, side), u), said, Other(side));
    }
  }

  lemma HeardOn(before: seq<Byte>, said: seq<Chunk>, side: Side)
    requires said != []
    ensures before + SaidBy([said[0]], side) + SaidBy(said[1..], side) == before + SaidBy(said, side)
  {
    SaidAlone(said[0], side);
    var x, y := SaidBy([said[0]], side), SaidBy(said[1..], side);
    assert SaidBy(said, side) == x + y;
    assert before + x + y == before + (x + y);
  }

  lemma SaidAlone(c: Chunk, side: Side)
    ensures SaidBy([c], side) == if c.from == side then c.data else []
  {
    assert [c][1..] == [];
  }

  /** A chunk is carried and both tasks wait again. */
  lemma Says(s: State, u: Uuid, c: Chunk) returns (acts: seq<Action>)
    requires Calm(s, u) && 1 <= |c.data| <= 512
    ensures Legal(s, acts) && Calm(After(s, acts), u) && Heard(s, After(s, acts), u, [c])
  {
    acts := Carries(c.from, s, u, c.data);
    var s' := After(s, acts);
    forall side ensures WrittenBy(EndOf(s', side), u) == WrittenBy(EndOf(s, side), u) + SaidBy([c], Other(side)) {
      SaidAlone(c, Other(side));
      assert side == c.from || side == Other(c.from);
    }
  }

  lemma {:induction false} Talks(s: State, u: Uuid, said: seq<Chunk>) returns (acts: seq<Action>)
    requires Calm(s, u) && AreChunks(said)
    ensures Legal(s, acts) && Calm(After(s, acts), u) && Heard(s, After(s, acts), u, said)
    decreases |said|
  {
    if said == [] {
      acts := [];
    } else {
      var first := Says(s, u, said[0]);
      var s1 := After(s, first);
      var rest := Talks(s1, u, said[1..]);
      AfterConcat(s, first, rest);
      HeardMore(s, s1, After(s1, rest), u, said);
      acts := first + rest;
    }
  }

  /** From the beginning to a connection. */
  lemma Begins(host: Option<string>, local: Addr, port: Port, u: Uuid) returns (acts: seq<Action>)
    requires 0 < port
    ensures Legal(Init(host), acts) && var s := After(Init(host), acts);
            && Calm(s, u) && u in s.dialled && s.dialled[u] == local
            && WrittenBy(s.np, u) == [] && WrittenBy(s.srv, u) == []
  {
    var s0 := Init(host);
    var a1 := OpensPort(s0, local, port);
    var s1 := After(s0, a1);
    assert s1.listeners[0] == Listener(port, local, Accepting, false);
    var a2 := MakesConnection(s1, 0, u, local);
    AfterConcat(s0, a1, a2);
    acts := a1 + a2;
  }

  /** One side reads the end; the other is told. */
  lemma Closes(s: State, u: Uuid, closer: Side) returns (acts: seq<Action>)
    requires Calm(s, u)
    ensures Legal(s, acts) && Heard(s, After(s, acts), u, []) && var s' := After(s, acts);
            && u in EndOf(s', closer).tasks && EndOf(s', closer).tasks[u].phase == Leaving(HitEof)
            && ClosedByPeer(EndOf(s', Other(closer)), u)
  {
    acts := Carries(closer, s, u, []);
    var s' := After(s, acts);
    forall side ensures WrittenBy(EndOf(s', side), u) == WrittenBy(EndOf(s, side), u) + [] {
      assert side == closer || side == Other(closer);
    }
  }

  /** Whatever the two ends of a connection say in turn, in chunks of any sizes that a read
      can give, there is a run from the beginning in which np has opened the port and dialled
      its local address, each side has written to its socket all that the other said, in
      order, and both are out of their loops: one read the end, the other was told to close. */
  lemma Conversation(host: Option<string>, local: Addr, port: Port, u: Uuid, said: seq<Chunk>, closer: Side)
    returns (acts: seq<Action>)
    requires 0 < port && AreChunks(said)
    ensures Legal(Init(host), acts) && var s := After(Init(host), acts);
            && u in s.dialled && s.dialled[u] == local
            && WrittenBy(EndOf(s, Np), u) == SaidBy(said, Server) && WrittenBy(EndOf(s, Server), u) == SaidBy(said, Np)
            && u in EndOf(s, closer).tasks && EndOf(s, closer).tasks[u].phase == Leaving(HitEof)
            && ClosedByPeer(EndOf(s, Other(closer)), u)
  {
    var s0 := Init(host);
    var a1 := Begins(host, local, port, u);
    var s1 := After(s0, a1);
    var a2 := Talks(s1, u, said);
    var s2 := After(s1, a2);
    var a3 := Closes(s2, u, closer);
    AfterConcat(s0, a1, a2);
    AfterConcat(s0, a1 + a2, a3);
    acts := a1 + a2 + a3;
    HeardAll(s1, s2, After(s2, a3), u, said);
  }

  lemma HeardAll(s1: State, s2: State, s3: State, u: Uuid, said: seq<Chunk>)
    requires WrittenBy(s1.np, u) == [] && WrittenBy(s1.srv, u) == []
    requires Heard(s1, s2, u, said) && Heard(s2, s3, u, [])
    ensures WrittenBy(EndOf(s3, Np), u) == SaidBy(said, Server) && WrittenBy(EndOf(s3, Server), u) == SaidBy(said, Np)
    ensures s3.dialled == s1.dialled
  {
    forall side: Side ensures WrittenBy(EndOf(s3, side), u) == SaidBy(said, Other(side)) {
      assert WrittenBy(EndOf(s2, side), u) == [] + SaidBy(said, Other(side));
      assert WrittenBy(EndOf(s3, side), u) == WrittenBy(EndOf(s2, side), u) + [];
    }
    assert Other(Np) == Server && Other(Server) == Np;
  }

  // ---------- things go wrong

  /** Whatever may fail at a task can fail: reading, writing and sending. */
  lemma TaskCanFail(s: State, side: Side, u: Uuid)
    requires u in EndOf(s, side).tasks
    ensures var e, phase := EndOf(s, side), EndOf(s, side).tasks[u].phase;
            && (phase.Selecting? ==>
                  CanDo(s, Turn(side, u, ReadError)) && CanDo(s, Turn(side, u, Elapsed(!e.released)))
                  && CanDo(s, Turn(side, u, Read([], !e.released))))
            && (phase.Writing? ==> CanDo(s, Turn(side, u, WriteError)))
            && (phase.Sending? ==> CanDo(s, Turn(side, u, SendError(false))))
  {
  }

  /** So can receiving at a free loop, binding and dialling, and whatever the loops send. */
  lemma LoopCanFail(s: State, side: Side, local: Addr)
    ensures EndOf(s, side).loop.Idle? ==> CanDo(s, LoopFails(side))
    ensures CanDo(s, RequestPort(local, Failed(false)))
    ensures s.srv.loop.Answering? ==> CanDo(s, Announce(Failed(false)))
    ensures s.np.loop.Answering? ==> CanDo(s, Reply(Failed(false)))
    ensures s.np.loop.Dialling? ==> CanDo(s, Dial(false))
    ensures s.srv.loop.Got? && s.srv.loop.msg.Open? ==> CanDo(s, Bind(None))
    ensures forall l: nat :: l < |s.listeners| && s.listeners[l].phase.Asking? ==> CanDo(s, AskNp(l, Failed(false)))
  {
  }

  /** When the server's session loop fails and the client is let go, an idle connection
      notices and unregisters, and an accept loop stops. */
  lemma BreaksDown(s: State, u: Uuid, l: nat)
    requires Calm(s, u) && NoneSending(s.srv) && NoneServing(s)
    requires l < |s.listeners| && s.listeners[l].phase.Accepting?
    ensures var acts := [LoopFails(Server), Release(Server)] + [ServerTask(u, Elapsed(false)), ServerTask(u, Unregister), StopListener(l)];
            Legal(s, acts) && var s' := After(s, acts);
            && u in s'.srv.tasks && s'.srv.tasks[u].phase == Ended(Released) && u !in s'.srv.chans
            && l < |s'.listeners| && s'.listeners[l].phase == Stopped(None) && s'.srv.released
  {
    var a1, a2 := [LoopFails(Server), Release(Server)], [ServerTask(u, Elapsed(false)), ServerTask(u, Unregister), StopListener(l)];
    Two(s, LoopFails(Server), Release(Server));
    var s1 := After(s, a1);
    assert s1 == s.(srv := s.srv.(loop := Dead, released := true));
    Notices(s1, u, l);
    AfterConcat(s, a1, a2);
  }

  lemma Notices(s: State, u: Uuid, l: nat)
    requires s.srv.released && !s.srv.loop.Blocked? && u in s.srv.tasks && s.srv.tasks[u].phase.Selecting?
    requires l < |s.listeners| && s.listeners[l].phase.Accepting?
    ensures var acts := [ServerTask(u, Elapsed(false)), ServerTask(u, Unregister), StopListener(l)];
            Legal(s, acts) && var s' := After(s, acts);
            && u in s'.srv.tasks && s'.srv.tasks[u].phase == Ended(Released) && u !in s'.srv.chans
            && l < |s'.listeners| && s'.listeners[l].phase == Stopped(None) && s'.srv.released
  {
    Three(s, ServerTask(u, Elapsed(false)), ServerTask(u, Unregister), StopListener(l));
  }
}
