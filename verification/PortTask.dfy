/** The task that serves one forwarded TCP connection: `serve_socket`'s spawned loop on the
    server and `client_port` in np. A task is a value here; its steps are the points at
    which the loop awaits. `read`, `eof`, `sent`, `got` and `written` are history: what was
    read from its socket, what it put on the websocket, what it took from its channel and
    what it wrote to its socket. */
module PortTask {

  newtype Byte = b: int | 0 <= b < 0x100

  type Uuid = string

  datatype PortMessage = Data(data: seq<Byte>) | Close

  /** Length of the buffer both loops read into. */
  const BUFFER_SIZE: nat := 512

  datatype Side = Server | Np

  /** Why a loop ended. */
  datatype Cause = GotClose | HitEof | WriteFailed | ReadFailed | SendFailed | Released

  datatype Phase =
    | Selecting
    | Writing(rest: seq<Byte>)
    | Sending(msg: PortMessage)
    | Leaving(cause: Cause)   // out of the loop, its writer still registered
    | Ended(cause: Cause)     // writer removed, channel dropped

  datatype Task = Task(
    phase: Phase,
    read: seq<Byte>, eof: bool,
    sent: seq<PortMessage>, cutOff: bool,
    got: seq<PortMessage>, written: seq<Byte>)

  const NewTask := Task(Selecting, [], false, [], false, [], [])

  /** What the awaited futures can yield. `alive` is the result of upgrading the weak client
      reference; a failed send may still have put its message on the wire (`reached`). */
  datatype Event =
    | Dequeue(msg: PortMessage)
    | Write(n: nat)
    | WriteError
    | Read(data: seq<Byte>, alive: bool)
    | ReadError
    | Elapsed(alive: bool)
    | SendOk
    | SendError(reached: bool)
    | Unregister

  predicate Running(t: Task) {
    t.phase.Selecting? || t.phase.Writing? || t.phase.Sending?
  }

  predicate Enabled(t: Task, e: Event) {
    match e
    case Dequeue(_) | ReadError | Elapsed(_) => t.phase.Selecting?
    case Read(data, _) => t.phase.Selecting? && |data| <= BUFFER_SIZE
    case Write(n) => t.phase.Writing? && 0 < n <= |t.phase.rest|
    case WriteError => t.phase.Writing?
    case SendOk => t.phase.Sending? && !t.cutOff
    case SendError(reached) => t.phase.Sending? && (reached ==> !t.cutOff)
    case Unregister => t.phase.Leaving?
  }

  function AwaitWrite(rest: seq<Byte>): Phase {
    if rest == [] then Selecting else Writing(rest)
  }

  function AfterSendError(side: Side, msg: PortMessage): Phase {
    if side.Np? then Leaving(SendFailed)
    else if msg.Close? then Leaving(HitEof)
    else Selecting
  }

  function Step(side: Side, t: Task, e: Event): Task
    requires Enabled(t, e)
  {
    match e
    case Dequeue(Data(data)) => t.(got := t.got + [e.msg], phase := AwaitWrite(data))
    case Dequeue(Close) => t.(got := t.got + [e.msg], phase := Leaving(GotClose))
    case Write(n) => t.(written := t.written + t.phase.rest[..n], phase := AwaitWrite(t.phase.rest[n..]))
    case WriteError => t.(phase := Leaving(WriteFailed))
    case Read(data, alive) =>
      t.(read := t.read + data, eof := t.eof || data == [],
         phase := if !alive then Leaving(Released) else Sending(if data == [] then Close else Data(data)))
    case ReadError => if side.Server? then t.(phase := Leaving(ReadFailed)) else t
    case Elapsed(alive) => if alive then t else t.(phase := Leaving(Released))
    case SendOk =>
      t.(sent := t.sent + [t.phase.msg],
         phase := if t.phase.msg.Close? then Leaving(HitEof) else Selecting)
    case SendError(reached) =>
      t.(sent := if reached then t.sent + [t.phase.msg] else t.sent, cutOff := true,
         phase := AfterSendError(side, t.phase.msg))
    case Unregister => t.(phase := Ended(t.phase.cause))
  }

  /** A scripted run of one task. */
  predicate Feasible(side: Side, t: Task, es: seq<Event>)
    decreases |es|
  {
    es == [] || (Enabled(t, es[0]) && Feasible(side, Step(side, t, es[0]), es[1..]))
  }

  function Run(side: Side, t: Task, es: seq<Event>): Task
    requires Feasible(side, t, es)
    decreases |es|
  {
    if es == [] then t else Run(side, Step(side, t, es[0]), es[1..])
  }

  // ---------- message streams and their bytes

  function Payload(m: PortMessage): seq<Byte> {
    if m.Data? then m.data else []
  }

  function Bytes(ms: seq<PortMessage>): seq<Byte> {
    if ms == [] then [] else Bytes(ms[..|ms| - 1]) + Payload(ms[|ms| - 1])
  }

  lemma BytesSnoc(ms: seq<PortMessage>, m: PortMessage)
    ensures Bytes(ms + [m]) == Bytes(ms) + Payload(m)
  {
    assert (ms + [m])[..|ms|] == ms;
  }

  lemma {:induction false} BytesConcat(a: seq<PortMessage>, b: seq<PortMessage>)
    ensures Bytes(a + b) == Bytes(a) + Bytes(b)
  {
    if b == [] {
      assert a + b == a;
    } else {
      var init := b[..|b| - 1];
      assert a + b == (a + init) + [b[|b| - 1]];
      BytesSnoc(a + init, b[|b| - 1]);
      BytesConcat(a, init);
    }
  }

  lemma BytesPrefix(a: seq<PortMessage>, b: seq<PortMessage>)
    requires a <= b
    ensures Bytes(a) <= Bytes(b)
  {
    BytesConcat(a, b[|a|..]);
    assert a + b[|a|..] == b;
  }

  /** Data messages, then at most one Close. */
  ghost predicate Stream(ms: seq<PortMessage>) {
    forall i :: 0 <= i < |ms| - 1 ==> ms[i].Data?
  }

  predicate EndsWithClose(ms: seq<PortMessage>) {
    ms != [] && ms[|ms| - 1].Close?
  }

  /** A stream has one Close at most: a prefix that already has it is the whole stream. */
  lemma ClosedPrefixIsAll(a: seq<PortMessage>, b: seq<PortMessage>)
    requires a <= b && Stream(b) && EndsWithClose(a)
    ensures a == b
  {
    assert b[|a| - 1] == a[|a| - 1];
  }

  ghost predicate AllData(ms: seq<PortMessage>) {
    forall i :: 0 <= i < |ms| ==> ms[i].Data?
  }

  ghost predicate Small(ms: seq<PortMessage>) {
    forall i :: 0 <= i < |ms| ==> |Payload(ms[i])| <= BUFFER_SIZE
  }

  // ---------- what every task keeps, whatever happens to it

  function Unsent(t: Task): seq<Byte> {
    if t.phase.Sending? then Payload(t.phase.msg) else []
  }

  function Unwritten(t: Task): seq<Byte> {
    if t.phase.Writing? then t.phase.rest else []
  }

  /** Reading side: the stream sent so far is what was read, in order. */
  ghost predicate SendsWhatItReads(t: Task) {
    && Stream(t.sent) && Small(t.sent)
    && Bytes(t.sent) <= t.read
    && (Running(t) && !t.cutOff ==> Bytes(t.sent) + Unsent(t) == t.read)
    && (EndsWithClose(t.sent) ==> t.eof && Bytes(t.sent) == t.read && !Running(t))
    && (t.eof ==> !Running(t) || t.phase == Sending(Close))
    && (t.phase.Sending? ==> (t.phase.msg.Close? <==> t.eof) && Small([t.phase.msg]))
  }

  /** Writing side: the bytes written are the messages taken, in order. */
  ghost predicate WritesWhatItGets(t: Task) {
    && Stream(t.got)
    && t.written <= Bytes(t.got)
    && (Running(t) ==> AllData(t.got) && t.written + Unwritten(t) == Bytes(t.got))
    && (!Running(t) ==> (t.phase.cause == GotClose <==> EndsWithClose(t.got)))
    && (EndsWithClose(t.got) ==> t.written == Bytes(t.got))
  }

  ghost predicate Good(t: Task) {
    SendsWhatItReads(t) && WritesWhatItGets(t)
  }

  lemma StepSends(side: Side, t: Task, e: Event)
    requires SendsWhatItReads(t) && Enabled(t, e)
    ensures SendsWhatItReads(Step(side, t, e))
  {
    if e.SendOk? || (e.SendError? && e.reached) {
      SentOn(t, Step(side, t, e));
    } else if e.Read? {
      ReadOn(t, Step(side, t, e), e.data);
    } else {
      NothingSent(t, Step(side, t, e));
    }
  }

  /** The message being sent reached the wire. */
  lemma SentOn(t: Task, t': Task)
    requires SendsWhatItReads(t) && t.phase.Sending? && !t.cutOff
    requires t'.sent == t.sent + [t.phase.msg] && t'.read == t.read && t'.eof == t.eof
    requires !t'.phase.Sending? && (Running(t') ==> t.phase.msg.Data?)
    ensures SendsWhatItReads(t')
  {
    BytesSnoc(t.sent, t.phase.msg);
    assert !EndsWithClose(t.sent);
  }

  lemma ReadOn(t: Task, t': Task, data: seq<Byte>)
    requires SendsWhatItReads(t) && t.phase.Selecting? && |data| <= BUFFER_SIZE
    requires t'.read == t.read + data && t'.eof == (data == []) && t'.sent == t.sent && t'.cutOff == t.cutOff
    requires t'.phase == Leaving(Released) || t'.phase == Sending(if data == [] then Close else Data(data))
    ensures SendsWhatItReads(t')
  {
  }

  /** A step that neither reads nor gets a message out. */
  lemma NothingSent(t: Task, t': Task)
    requires SendsWhatItReads(t) && !t'.phase.Sending?
    requires t'.read == t.read && t'.eof == t.eof && t'.sent == t.sent && (t.cutOff ==> t'.cutOff)
    requires Running(t') ==> Running(t) && (t'.cutOff || !t.phase.Sending?) && !t'.eof
    ensures SendsWhatItReads(t')
  {
  }

  lemma StepWrites(side: Side, t: Task, e: Event)
    requires WritesWhatItGets(t) && Enabled(t, e)
    ensures WritesWhatItGets(Step(side, t, e))
  {
    if e.Dequeue? {
      TookOne(t, Step(side, t, e));
    } else if e.Write? {
      WroteSome(t, Step(side, t, e), e.n);
    } else {
      NothingWritten(t, Step(side, t, e));
    }
  }

  lemma NothingWritten(t: Task, t': Task)
    requires WritesWhatItGets(t) && t'.got == t.got && t'.written == t.written && !t'.phase.Writing?
    requires Running(t') ==> Running(t) && !t.phase.Writing?
    requires !Running(t') ==> if Running(t) then t'.phase.cause != GotClose else t'.phase.cause == t.phase.cause
    ensures WritesWhatItGets(t')
  {
  }

  lemma TookOne(t: Task, t': Task)
    requires WritesWhatItGets(t) && t.phase.Selecting?
    requires |t'.got| == |t.got| + 1 && t.got <= t'.got && t'.written == t.written
    requires var m := t'.got[|t.got|];
             t'.phase == if m.Close? then Leaving(GotClose) else AwaitWrite(m.data)
    ensures WritesWhatItGets(t')
  {
    assert t'.got == t.got + [t'.got[|t.got|]];
    BytesSnoc(t.got, t'.got[|t.got|]);
  }

  lemma WroteSome(t: Task, t': Task, n: nat)
    requires WritesWhatItGets(t) && t.phase.Writing? && n <= |t.phase.rest|
    requires t'.got == t.got && t'.written == t.written + t.phase.rest[..n]
    requires t'.phase == AwaitWrite(t.phase.rest[n..])
    ensures WritesWhatItGets(t')
  {
    assert t'.written + t.phase.rest[n..] == t.written + t.phase.rest;
  }

  /** What a step does to the history of messages, and when a task ends. */
  lemma StepOutline(side: Side, t: Task, e: Event)
    requires Enabled(t, e)
    ensures var t' := Step(side, t, e);
            && t'.sent == t.sent + (if e.SendOk? || (e.SendError? && e.reached) then [t.phase.msg] else [])
            && t'.got == t.got + (if e.Dequeue? then [e.msg] else [])
            && (t'.phase.Ended? <==> e.Unregister?) && !t.phase.Ended?
            && (t'.cutOff <==> t.cutOff || e.SendError?)
  {
  }

  /** A loop that has been left reads, sends, takes and writes nothing more. */
  lemma {:induction false} LeftForGood(side: Side, t: Task, es: seq<Event>)
    requires !Running(t) && Feasible(side, t, es)
    ensures var t' := Run(side, t, es);
            !Running(t') && t'.phase.cause == t.phase.cause
            && t'.(phase := t.phase) == t
    decreases |es|
  {
    if es != [] {
      LeftForGood(side, Step(side, t, es[0]), es[1..]);
    }
  }

  lemma {:induction false} RunGood(side: Side, t: Task, es: seq<Event>)
    requires Good(t) && Feasible(side, t, es)
    ensures Good(Run(side, t, es))
    decreases |es|
  {
    if es != [] {
      StepSends(side, t, es[0]);
      StepWrites(side, t, es[0]);
      RunGood(side, Step(side, t, es[0]), es[1..]);
    }
  }
}
