/** The two forwarding loops as written: one buffer is reused for every read, a message gets
    a copy of what was read, and each awaited future resolves as a script says. Both are
    proved against the task of module PortTask, and keep the laws of module PortScript. */
module PortLoop {
  import opened PortTask
  import opened PortScript

  /** Where a loop stands in its script, against the task the script has led to. */
  ghost predicate At(side: Side, script: seq<Event>, i: nat, t: Task) {
    && i <= |script| && Feasible(side, NewTask, script) && Feasible(side, t, script[i..])
    && Run(side, NewTask, script) == Run(side, t, script[i..])
  }

  lemma Next(side: Side, script: seq<Event>, i: nat, t: Task)
    requires At(side, script, i, t) && i < |script|
    ensures Enabled(t, script[i]) && At(side, script, i + 1, Step(side, t, script[i]))
  {
    assert script[i..][1..] == script[i + 1..];
  }

  lemma Over(side: Side, script: seq<Event>, i: nat, t: Task)
    requires At(side, script, i, t) && (i == |script| || t.phase.Ended?)
    ensures Run(side, NewTask, script) == t
  {
    if i < |script| {
      Next(side, script, i, t);
    }
  }

  // ---------- the loops

  /** `write_all`: pieces, until all is written or an error. */
  method WriteAll(side: Side, script: seq<Event>, from: nat, data: seq<Byte>, sofar: seq<Byte>, ghost t0: Task)
    returns (i: nat, phase: Phase, written: seq<Byte>, ghost t: Task)
    requires At(side, script, from, t0) && t0.phase == AwaitWrite(data) && t0.written == sofar
    ensures At(side, script, i, t) && t == t0.(phase := phase, written := written)
    ensures phase.Selecting? || phase.Leaving? || i == |script|
    ensures from <= i && !phase.Ended? && !phase.Sending?
  {
    i, phase, written, t := from, AwaitWrite(data), sofar, t0;
    while phase.Writing? && i < |script|
      invariant from <= i && At(side, script, i, t) && t == t0.(phase := phase, written := written)
      invariant phase.Selecting? || phase.Writing? || phase.Leaving?
      decreases |script| - i
    {
      Next(side, script, i, t);
      match script[i] {
        case Write(n) =>
          written := written + phase.rest[..n];
          phase := AwaitWrite(phase.rest[n..]);
        case WriteError =>
          phase := Leaving(WriteFailed);
      }
      t := Step(side, t, script[i]);
      i := i + 1;
    }
  }

  /** The task `serve_socket` spawns on the server. */
  method ServeSocket(script: seq<Event>) returns (phase: Phase, sent: seq<PortMessage>, written: seq<Byte>)
    requires Feasible(Server, NewTask, script)
    ensures var t := Run(Server, NewTask, script);
            phase == t.phase && sent == t.sent && written == t.written
    ensures Faithful(Server, script, phase, sent, written)
  {
    var buf := new Byte[BUFFER_SIZE];
    var i := 0;
    ghost var t := NewTask;
    phase, sent, written := Selecting, [], [];
    assert script[0..] == script;
    while phase.Selecting? && i < |script|
      invariant At(Server, script, i, t) && phase == t.phase && sent == t.sent && written == t.written
      invariant phase.Selecting? || phase.Leaving? || i == |script|
      decreases |script| - i
    {
      Next(Server, script, i, t);
      var e := script[i];
      t, i := Step(Server, t, e), i + 1;
      match e
      case Dequeue(Data(data)) =>
        i, phase, written, t := WriteAll(Server, script, i, data, written, t);
      case Dequeue(Close) =>
        phase := Leaving(GotClose);
      case Read(data, alive) =>
        forall k | 0 <= k < |data| { buf[k] := data[k]; }
        var size := |data|;
        assert buf[..size] == data;
        if !alive {
          phase := Leaving(Released);
        } else {
          var msg := if size == 0 then Close else Data(buf[..size]);
          phase := Sending(msg);
          if i < |script| {
            Next(Server, script, i, t);
            match script[i] {
              case SendOk => sent := sent + [msg];
              case SendError(reached) => sent := if reached then sent + [msg] else sent;
            }
            t, i := Step(Server, t, script[i]), i + 1;
            phase := if size == 0 then Leaving(HitEof) else Selecting;
          }
        }
      case ReadError =>
        phase := Leaving(ReadFailed);
      case Elapsed(alive) =>
        if !alive { phase := Leaving(Released); }
    }
    if phase.Leaving? && i < |script| {
      Next(Server, script, i, t);
      phase := Ended(phase.cause);
      t, i := Step(Server, t, script[i]), i + 1;
    }
    Over(Server, script, i, t);
    RunFaithful(Server, script);
  }

  /** The task `client_port` spawns in np. */
  method ClientPort(script: seq<Event>) returns (phase: Phase, sent: seq<PortMessage>, written: seq<Byte>)
    requires Feasible(Np, NewTask, script)
    ensures var t := Run(Np, NewTask, script);
            phase == t.phase && sent == t.sent && written == t.written
    ensures Faithful(Np, script, phase, sent, written)
  {
    var buf := new Byte[BUFFER_SIZE];
    var i := 0;
    ghost var t := NewTask;
    phase, sent, written := Selecting, [], [];
    assert script[0..] == script;
    while phase.Selecting? && i < |script|
      invariant At(Np, script, i, t) && phase == t.phase && sent == t.sent && written == t.written
      invariant phase.Selecting? || phase.Leaving? || i == |script|
      decreases |script| - i
    {
      Next(Np, script, i, t);
      var e := script[i];
      t, i := Step(Np, t, e), i + 1;
      match e
      case Dequeue(Data(data)) =>
        i, phase, written, t := WriteAll(Np, script, i, data, written, t);
      case Dequeue(Close) =>
        phase := Leaving(GotClose);
      case Read(data, alive) =>
        forall k | 0 <= k < |data| { buf[k] := data[k]; }
        var size := |data|;
        assert buf[..size] == data;
        if !alive {
          phase := Leaving(Released);
        } else {
          var msg := if size == 0 then Close else Data(buf[..size]);
          phase := Sending(msg);
          if i < |script| {
            Next(Np, script, i, t);
            match script[i] {
              case SendOk =>
                sent := sent + [msg];
                phase := if size == 0 then Leaving(HitEof) else Selecting;
              case SendError(reached) =>
                sent := if reached then sent + [msg] else sent;
                phase := Leaving(SendFailed);
            }
            t, i := Step(Np, t, script[i]), i + 1;
          }
        }
      case ReadError =>
      case Elapsed(alive) =>
        if !alive { phase := Leaving(Released); }
    }
    if phase.Leaving? && i < |script| {
      Next(Np, script, i, t);
      phase := Ended(phase.cause);
      t, i := Step(Np, t, script[i]), i + 1;
    }
    Over(Np, script, i, t);
    RunFaithful(Np, script);
  }
}
