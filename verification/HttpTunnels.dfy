/** HTTP forwardings of one client: the server's names for it, the messages about them on
    the websocket, and np's table, which follows. Other clients claim and release names of
    their own at any time. */
module HttpTunnels {
  import opened Text
  import opened Addresses

  type Host = string
  type Table = map<Host, Addr>

  datatype Msg =
    | HttpOpened(host: Host, local: Addr, failed: bool)
    | HttpClosed(host: Host, failed: bool)
    | HttpRequest(id: string, host: Host, seen: Table)   // seen: history, what np's table will be

  /** The server's handler for this client: idle, between the two halves of a claim,
      between the two halves of a release, about to answer, or over. */
  datatype Handler =
    | Idle
    | Claimed(host: Host, local: Addr)
    | Removed(host: Host)
    | Answering(msg: Msg)
    | Over

  datatype State = State(
    names: Table,             // the client's hostnames, with the address of the HttpOpen (history)
    claimed: set<Host>,       // of all clients
    handler: Handler,
    wire: seq<Msg>, broken: bool,
    np: Table)

  const Init := State(map[], {}, Idle, [], false, map[])

  /** np handles a message: `http_register` and `http_deregister`. */
  function Apply(t: Table, m: Msg): Table {
    match m
    case HttpOpened(h, local, failed) => if failed || h in t then t else t[h := local]
    case HttpClosed(h, _) => t - {h}
    case HttpRequest(_, _, _) => t
  }

  function ApplyAll(t: Table, ms: seq<Msg>): Table {
    if ms == [] then t else Apply(ApplyAll(t, ms[..|ms| - 1]), ms[|ms| - 1])
  }

  datatype Action =
    | ClaimName(host: Host, local: Addr)          // HttpOpen: the global half
    | RefuseOpen(host: Host, local: Addr)         // HttpOpen of a name that is not valid
    | AddName                                     // HttpOpen: the client's half
    | RemoveName(host: Host)                      // HttpClose: the client's half
    | FreeName                                    // HttpClose: the global half
    | Answer(ok: bool)
    | Request(id: string, host: Host, ok: bool)   // an HTTP request is sent down
    | OthersClaim(host: Host)
    | OthersFree(host: Host)
    | NpHandles

  predicate CanDo(s: State, a: Action) {
    match a
    case ClaimName(_, _) => s.handler.Idle?
    case RefuseOpen(_, _) => s.handler.Idle?
    case AddName => s.handler.Claimed?
    case RemoveName(_) => s.handler.Idle?
    case FreeName => s.handler.Removed?
    case Answer(ok) => s.handler.Answering? && (ok ==> !s.broken)
    case Request(_, _, ok) => ok ==> !s.broken
    case OthersClaim(h) => h !in s.claimed
    case OthersFree(h) => h !in s.names && s.handler != Removed(h) && !(s.handler.Claimed? && s.handler.host == h)
    case NpHandles => s.wire != []
  }

  function Do(s: State, a: Action): State
    requires CanDo(s, a)
  {
    match a
    case ClaimName(h, local) =>
      if h in s.claimed then s.(handler := Answering(HttpOpened(h, local, true)))
      else s.(claimed := s.claimed + {h}, handler := Claimed(h, local))
    case RefuseOpen(h, local) => s.(handler := Answering(HttpOpened(h, local, true)))
    case AddName =>
      var Claimed(h, local) := s.handler;
      s.(names := s.names[h := local], handler := Answering(HttpOpened(h, local, false)))
    case RemoveName(h) =>
      if h !in s.names then s.(handler := Answering(HttpClosed(h, true)))
      else s.(names := s.names - {h}, handler := Removed(h))
    case FreeName =>
      s.(claimed := s.claimed - {s.handler.host}, handler := Answering(HttpClosed(s.handler.host, false)))
    case Answer(ok) =>
      if ok then s.(wire := s.wire + [s.handler.msg], handler := Idle) else s.(broken := true, handler := Over)
    case Request(id, h, ok) =>
      if ok then s.(wire := s.wire + [HttpRequest(id, h, ApplyAll(s.np, s.wire))]) else s.(broken := true)
    case OthersClaim(h) => s.(claimed := s.claimed + {h})
    case OthersFree(h) => s.(claimed := s.claimed - {h})
    case NpHandles => s.(np := Apply(s.np, s.wire[0]), wire := s.wire[1..])
  }

  predicate Legal(s: State, acts: seq<Action>)
    decreases |acts|
  {
    acts == [] || (CanDo(s, acts[0]) && Legal(Do(s, acts[0]), acts[1..]))
  }

  function After(s: State, acts: seq<Action>): State
    requires Legal(s, acts)
    decreases |acts|
  {
    if acts == [] then s else After(Do(s, acts[0]), acts[1..])
  }

  lemma One(s: State, a: Action)
    requires CanDo(s, a)
    ensures Legal(s, [a]) && After(s, [a]) == Do(s, a)
  {
  }

  lemma Two(s: State, a: Action, b: Action)
    requires CanDo(s, a) && CanDo(Do(s, a), b)
    ensures Legal(s, [a, b]) && After(s, [a, b]) == Do(Do(s, a), b)
  {
    assert [a, b][1..] == [b];
    One(Do(s, a), b);
  }

  // ---------- folding messages into a table

  lemma ApplySnoc(t: Table, ms: seq<Msg>, m: Msg)
    ensures ApplyAll(t, ms + [m]) == Apply(ApplyAll(t, ms), m)
  {
    assert (ms + [m])[..|ms|] == ms;
  }

  lemma {:induction false} ApplyFirst(t: Table, ms: seq<Msg>)
    requires ms != []
    ensures ApplyAll(Apply(t, ms[0]), ms[1..]) == ApplyAll(t, ms)
  {
    var init := ms[..|ms| - 1];
    if init == [] {
      assert ms == [ms[0]] && ms[1..] == [];
      assert ApplyAll(t, init) == t;
    } else {
      ApplyFirst(t, init);
      assert ms[1..] == init[1..] + [ms[|ms| - 1]];
      ApplySnoc(Apply(t, ms[0]), init[1..], ms[|ms| - 1]);
    }
  }

  // ---------- what is kept

  /** What np's table comes to once the messages sent, and the one the handler still owes,
      have arrived. */
  function Due(s: State): Table {
    var t := ApplyAll(s.np, s.wire);
    match s.handler
    case Answering(m) => Apply(t, m)
    case Removed(h) => t - {h}
    case _ => t
  }

  /** Each request on the wire is preceded by all that makes np's table what was recorded. */
  ghost predicate RequestsSee(s: State) {
    forall k :: 0 <= k < |s.wire| && s.wire[k].HttpRequest? ==> ApplyAll(s.np, s.wire[..k]) == s.wire[k].seen
  }

  ghost predicate Inv(s: State) {
    && (if s.handler.Over? then s.broken else Due(s) == s.names)
    && s.names.Keys <= s.claimed
    && (s.handler.Claimed? ==> s.handler.host in s.claimed && s.handler.host !in s.names)
    && (s.handler.Removed? ==> s.handler.host !in s.names)
    && (s.handler.Answering? ==> !s.handler.msg.HttpRequest?)
  }

  lemma AnswerKeeps(s: State, ok: bool)
    requires Inv(s) && CanDo(s, Answer(ok))
    ensures Inv(Do(s, Answer(ok)))
  {
    ApplySnoc(s.np, s.wire, s.handler.msg);
  }

  lemma RequestKeeps(s: State, id: string, h: Host, ok: bool)
    requires Inv(s) && CanDo(s, Request(id, h, ok))
    ensures Inv(Do(s, Request(id, h, ok)))
  {
    ApplySnoc(s.np, s.wire, HttpRequest(id, h, ApplyAll(s.np, s.wire)));
  }

  lemma NpKeeps(s: State)
    requires Inv(s) && CanDo(s, NpHandles)
    ensures Inv(Do(s, NpHandles))
  {
    ApplyFirst(s.np, s.wire);
  }

  lemma HandlerKeeps(s: State, a: Action)
    requires Inv(s) && CanDo(s, a)
    requires a.ClaimName? || a.RefuseOpen? || a.AddName? || a.RemoveName? || a.FreeName?
    ensures Inv(Do(s, a))
  {
  }

  lemma StepKeeps(s: State, a: Action)
    requires Inv(s) && CanDo(s, a)
    ensures Inv(Do(s, a))
  {
    match a
    case Answer(ok) => AnswerKeeps(s, ok);
    case Request(id, h, ok) => RequestKeeps(s, id, h, ok);
    case NpHandles => NpKeeps(s);
    case OthersClaim(_) =>
    case OthersFree(_) =>
    case _ => HandlerKeeps(s, a);
  }

  lemma NpSees(s: State, k: nat)
    requires RequestsSee(s) && s.wire != [] && k < |s.wire| - 1 && s.wire[k + 1].HttpRequest?
    ensures ApplyAll(Apply(s.np, s.wire[0]), s.wire[1..][..k]) == s.wire[k + 1].seen
  {
    var front := s.wire[..k + 1];
    ApplyFirst(s.np, front);
    assert front[0] == s.wire[0] && front[1..] == s.wire[1..][..k];
  }

  lemma StepSees(s: State, a: Action)
    requires RequestsSee(s) && CanDo(s, a) && (s.handler.Answering? ==> !s.handler.msg.HttpRequest?)
    ensures RequestsSee(Do(s, a))
  {
    var s' := Do(s, a);
    forall k | 0 <= k < |s'.wire| && s'.wire[k].HttpRequest? ensures ApplyAll(s'.np, s'.wire[..k]) == s'.wire[k].seen {
      if a.NpHandles? {
        NpSees(s, k);
      } else if k < |s.wire| {
        assert s'.wire[..k] == s.wire[..k] && s'.wire[k] == s.wire[k];
      } else {
        assert s'.wire[..k] == s.wire;
      }
    }
  }

  lemma {:induction false} RunKeeps(s: State, acts: seq<Action>)
    requires Inv(s) && RequestsSee(s) && Legal(s, acts)
    ensures Inv(After(s, acts)) && RequestsSee(After(s, acts))
    decreases |acts|
  {
    if acts != [] {
      StepKeeps(s, acts[0]);
      StepSees(s, acts[0]);
      RunKeeps(Do(s, acts[0]), acts[1..]);
    }
  }

  ghost predicate Reachable(s: State) {
    exists acts :: Legal(Init, acts) && After(Init, acts) == s
  }

  lemma ReachableInv(s: State)
    requires Reachable(s)
    ensures Inv(s) && RequestsSee(s)
  {
    var acts :| Legal(Init, acts) && After(Init, acts) == s;
    RunKeeps(Init, acts);
  }

  // ---------- what it comes to

  /** Whenever no handler is at work, applying the messages on the wire to np's table gives
      exactly the server's names, each with the local address of the HttpOpen behind it. */
  lemma TableFollows(s: State)
    requires Reachable(s) && s.handler.Idle?
    ensures ApplyAll(s.np, s.wire) == s.names
    ensures s.wire == [] ==> s.np == s.names
  {
    ReachableInv(s);
  }

  /** Requests with this id, if any, were sent when np's table was due to be `t`. */
  ghost predicate SentAt(s: State, id: string, t: Table) {
    forall m :: m in s.wire && m.HttpRequest? && m.id == id ==> m.seen == t
  }

  predicate Avoids(acts: seq<Action>, id: string) {
    forall i :: 0 <= i < |acts| && acts[i].Request? ==> acts[i].id != id
  }

  lemma {:induction false} SentAtStays(s: State, acts: seq<Action>, id: string, t: Table)
    requires SentAt(s, id, t) && Inv(s) && Legal(s, acts) && Avoids(acts, id)
    ensures SentAt(After(s, acts), id, t)
    decreases |acts|
  {
    if acts != [] {
      StepKeeps(s, acts[0]);
      SentAtStep(s, acts[0], id, t);
      assert forall i :: 0 <= i < |acts[1..]| ==> acts[1..][i] == acts[i + 1];
      SentAtStays(Do(s, acts[0]), acts[1..], id, t);
    }
  }

  lemma SentAtStep(s: State, a: Action, id: string, t: Table)
    requires SentAt(s, id, t) && Inv(s) && CanDo(s, a) && (a.Request? ==> a.id != id)
    ensures SentAt(Do(s, a), id, t)
  {
  }

  /** The name that the handler is at work on. */
  function Busy(s: State): Option<Host> {
    match s.handler
    case Claimed(h, _) => Some(h)
    case Removed(h) => Some(h)
    case Answering(m) => Some(m.host)
    case Idle => None
    case Over => None
  }

  /** The tables agree on every name but that one. */
  ghost predicate AgreeBut(t: Table, u: Table, but: Option<Host>) {
    forall h :: Some(h) != but ==> (h in t <==> h in u) && (h in t ==> t[h] == u[h])
  }

  /** Some request with this id is first on the wire: np is about to handle it. */
  predicate Arrives(s: State, id: string) {
    s.wire != [] && s.wire[0].HttpRequest? && s.wire[0].id == id
  }

  /** When np comes to a request its table is what was on its way when the request was sent. */
  lemma RequestMeets(s: State, id: string, h: Host, acts: seq<Action>)
    requires Inv(s) && RequestsSee(s) && CanDo(s, Request(id, h, true))
    requires forall m :: m in s.wire && m.HttpRequest? ==> m.id != id
    requires Legal(Do(s, Request(id, h, true)), acts) && Avoids(acts, id)
    ensures var s' := After(Do(s, Request(id, h, true)), acts);
            Arrives(s', id) ==> s'.np == ApplyAll(s.np, s.wire)
  {
    var s1 := Do(s, Request(id, h, true));
    StepKeeps(s, Request(id, h, true));
    StepSees(s, Request(id, h, true));
    RunKeeps(s1, acts);
    SentAtStays(s1, acts, id, ApplyAll(s.np, s.wire));
    var s' := After(s1, acts);
    if Arrives(s', id) {
      assert ApplyAll(s'.np, s'.wire[..0]) == s'.wire[0].seen;
      assert s'.wire[0] in s'.wire;
    }
  }

  /** A request may be sent at any time. When np comes to it, np's table agrees with the
      names the server had when it sent it on every name but the one that the handler was
      at work on: np forwards it to the address of the HttpOpen behind the name, or to nobody
      if the name had gone. */
  lemma RequestFindsItsNames(s: State, id: string, h: Host, acts: seq<Action>)
    requires Reachable(s) && CanDo(s, Request(id, h, true))
    requires forall m :: m in s.wire && m.HttpRequest? ==> m.id != id
    requires Legal(Do(s, Request(id, h, true)), acts) && Avoids(acts, id)
    ensures var s' := After(Do(s, Request(id, h, true)), acts);
            Arrives(s', id) ==> AgreeBut(s'.np, s.names, Busy(s))
  {
    ReachableInv(s);
    RequestMeets(s, id, h, acts);
  }

  /** With no handler at work, then, exactly the names the server had. */
  lemma RequestFindsItsTable(s: State, id: string, h: Host, acts: seq<Action>)
    requires Reachable(s) && s.handler.Idle? && CanDo(s, Request(id, h, true))
    requires forall m :: m in s.wire && m.HttpRequest? ==> m.id != id
    requires Legal(Do(s, Request(id, h, true)), acts) && Avoids(acts, id)
    ensures var s' := After(Do(s, Request(id, h, true)), acts);
            Arrives(s', id) ==> s'.np == s.names
  {
    RequestFindsItsNames(s, id, h, acts);
    var s' := After(Do(s, Request(id, h, true)), acts);
    if Arrives(s', id) {
      assert forall g :: g in s'.np <==> g in s.names;
      assert forall g :: g in s'.np ==> s'.np[g] == s.names[g];
    }
  }

  /** Left to itself np catches up: it can handle message after message until the wire is
      empty, and then has exactly the server's names. */
  lemma CatchesUp(s: State) returns (acts: seq<Action>)
    requires Reachable(s) && s.handler.Idle?
    ensures Legal(s, acts) && var s' := After(s, acts);
            s'.wire == [] && s'.np == s.names && s'.names == s.names && s'.handler == Idle && s'.broken == s.broken
  {
    ReachableInv(s);
    acts := Drain(s);
  }

  lemma {:induction false} Drain(s: State) returns (acts: seq<Action>)
    ensures Legal(s, acts) && After(s, acts) == s.(np := ApplyAll(s.np, s.wire), wire := [])
    decreases |s.wire|
  {
    if s.wire == [] {
      acts := [];
    } else {
      ApplyFirst(s.np, s.wire);
      var rest := Drain(Do(s, NpHandles));
      acts := [NpHandles] + rest;
      assert acts[1..] == rest;
    }
  }

  /** A handler that has something to answer can send it as long as the websocket lives, and
      a request can be sent then at any time. */
  lemma CanSend(s: State, id: string, h: Host)
    requires !s.broken
    ensures s.handler.Answering? ==> CanDo(s, Answer(true)) && Do(s, Answer(true)).wire == s.wire + [s.handler.msg]
    ensures s.handler.Answering? ==> Do(s, Answer(true)).handler == Idle
    ensures CanDo(s, Request(id, h, true)) && |Do(s, Request(id, h, true)).wire| == |s.wire| + 1
    ensures var m := Do(s, Request(id, h, true)).wire[|s.wire|]; m.HttpRequest? && m.id == id && m.host == h
  {
  }

  /** Other clients can claim any name that nobody has and free any that is not this
      client's. */
  lemma OthersCan(s: State, h: Host)
    ensures h !in s.claimed ==> CanDo(s, OthersClaim(h)) && Do(s, OthersClaim(h)) == s.(claimed := s.claimed + {h})
    ensures h !in s.names && Busy(s) != Some(h) ==> CanDo(s, OthersFree(h)) && Do(s, OthersFree(h)) == s.(claimed := s.claimed - {h})
  {
  }
}
