/** HTTP requests and their responses: which response completes which request. */
module HttpRequests {
  import opened Text

  type Id = string
  type ClientId = nat

  /** np's answer: `http_response::Payload`, or none. */
  datatype Payload = Data(status: nat) | Error | Empty

  datatype Outcome =
    | Waiting
    | Completed(from: ClientId, id: Id, payload: Payload)
    | TimedOut
    | Unsent       // sending it to the client failed
    | Lost         // the client was dropped with its pending map

  /** `client` is who it was sent to; `answered` (history): a response took its entry. */
  datatype Request = Request(client: ClientId, outcome: Outcome, answered: bool)

  /** `pending` holds the `http_requests` map of every client. */
  datatype State = State(requests: map<Id, Request>, pending: map<ClientId, set<Id>>, ended: set<ClientId>)

  const Init := State(map[], map[], {})

  datatype Action =
    | Connects(client: ClientId)
    | Enqueue(id: Id, client: ClientId)                 // enqueue_request, after its lookup
    | SendFails(id: Id)
    | Responds(client: ClientId, id: Id, payload: Payload)
    | TimesOut(id: Id)
    | Drops(client: ClientId)

  predicate CanDo(s: State, a: Action) {
    match a
    case Connects(c) => c !in s.pending && c !in s.ended
    case Enqueue(id, c) => id !in s.requests && c in s.pending
    case SendFails(id) => id in s.requests && s.requests[id].outcome.Waiting?
    case Responds(c, _, _) => c in s.pending && c !in s.ended
    case TimesOut(id) => id in s.requests && s.requests[id].outcome.Waiting?
    case Drops(c) => c in s.pending
  }

  function SetOutcome(s: State, id: Id, outcome: Outcome): State
    requires id in s.requests
  {
    s.(requests := s.requests[id := s.requests[id].(outcome := outcome)])
  }

  /** `send_http_response`: takes the entry and passes the response on if anybody still
      waits; without an entry the client's session ends. */
  function Respond(s: State, c: ClientId, id: Id, payload: Payload): State
    requires c in s.pending
  {
    if id !in s.pending[c] then s.(ended := s.ended + {c})
    else
      var s' := s.(pending := s.pending[c := s.pending[c] - {id}]);
      if id in s.requests
      then s'.(requests := s.requests[id := s.requests[id].(
                 answered := true,
                 outcome := if s.requests[id].outcome.Waiting? then Completed(c, id, payload) else s.requests[id].outcome)])
      else s'
  }

  function Drop(s: State, c: ClientId): State
    requires c in s.pending
  {
    s.(requests := map id | id in s.requests ::
         if s.requests[id].client == c && s.requests[id].outcome.Waiting? then s.requests[id].(outcome := Lost)
         else s.requests[id],
       pending := s.pending - {c}, ended := s.ended + {c})
  }

  function Do(s: State, a: Action): State
    requires CanDo(s, a)
  {
    match a
    case Connects(c) => s.(pending := s.pending[c := {}])
    case Enqueue(id, c) =>
      s.(requests := s.requests[id := Request(c, Waiting, false)], pending := s.pending[c := s.pending[c] + {id}])
    case SendFails(id) => SetOutcome(s, id, Unsent)
    case Responds(c, id, payload) => Respond(s, c, id, payload)
    case TimesOut(id) => SetOutcome(s, id, TimedOut)
    case Drops(c) => Drop(s, c)
  }

  predicate Legal(s: State, acts: seq<Action>)
    decreases |acts|
  {
    acts == [] || (CanDo(s, acts[0]) && Legal(Do(s, acts[0]), acts[1..]))
  }

  function After(s: State, acts: seq<Action>): State
    requires Legal(s, acts)
    decreases |acts|
  {
    if acts == [] then s else After(Do(s, acts[0]), acts[1..])
  }

  // ---------- what the visitor gets

  /** What the visitor's connection comes to: a response, none yet, or none ever, because the
      handler panics on a status that is none. */
  datatype Visit = Open | Status(code: nat) | Panic

  predicate IsStatus(n: nat) {
    100 <= n < 1000
  }

  /** np's status, a 32-bit number, is truncated to 16 bits. */
  function Forwarded(status: nat): Visit {
    var code := status % 0x1_0000;
    if IsStatus(code) then Status(code) else Panic
  }

  /** `forward_request`, `status_code` and the end of `forward`. Without a client the request
      is never enqueued. */
  function VisitOf(outcome: Option<Outcome>): Visit {
    match outcome
    case None => Status(404)
    case Some(Waiting) => Open
    case Some(Unsent) => Status(404)
    case Some(TimedOut) => Status(504)
    case Some(Lost) => Status(500)
    case Some(Completed(_, _, Empty)) => Status(500)
    case Some(Completed(_, _, Error)) => Status(502)
    case Some(Completed(_, _, Data(status))) => Forwarded(status)
  }

  // ---------- what is kept

  predicate Owed(s: State, id: Id, c: ClientId) {
    id in s.requests && s.requests[id].client == c && !s.requests[id].answered
  }

  ghost predicate Inv(s: State) {
    && (forall id, c :: c in s.pending ==> (id in s.pending[c] <==> Owed(s, id, c)))
    && (forall id :: id in s.requests && s.requests[id].outcome.Completed? ==>
          s.requests[id].answered && s.requests[id].outcome.from == s.requests[id].client && s.requests[id].outcome.id == id)
    && (forall id :: id in s.requests ==> s.requests[id].client in s.pending || s.requests[id].client in s.ended)
    && (forall id :: id in s.requests && s.requests[id].outcome.Waiting? ==>
          !s.requests[id].answered && s.requests[id].client in s.pending)
  }

  lemma StepKeeps(s: State, a: Action)
    requires Inv(s) && CanDo(s, a)
    ensures Inv(Do(s, a))
  {
    var s' := Do(s, a);
    match a
    case Connects(c) =>
    case Enqueue(id, c) =>
    case SendFails(id) =>
    case Responds(c, id, payload) => RespondKeeps(s, c, id, payload);
    case TimesOut(id) =>
    case Drops(c) =>
  }

  lemma RespondKeeps(s: State, c: ClientId, id: Id, payload: Payload)
    requires Inv(s) && c in s.pending
    ensures Inv(Respond(s, c, id, payload))
  {
    if id in s.pending[c] {
      assert Owed(s, id, c);
    }
  }

  lemma {:induction false} RunKeeps(s: State, acts: seq<Action>)
    requires Inv(s) && Legal(s, acts)
    ensures Inv(After(s, acts))
    decreases |acts|
  {
    if acts != [] {
      StepKeeps(s, acts[0]);
      RunKeeps(Do(s, acts[0]), acts[1..]);
    }
  }

  // ---------- matching

  /** Over any run the pending map of a connected client holds exactly the requests sent to
      it that no response has taken, and a request is only ever completed by a response
      with its own id from the client it was sent to. */
  lemma ResponsesMatch(acts: seq<Action>, id: Id, c: ClientId)
    requires Legal(Init, acts)
    ensures var s := After(Init, acts);
            && (c in s.pending ==> (id in s.pending[c] <==> Owed(s, id, c)))
            && (id in s.requests && s.requests[id].outcome.Completed? ==>
                  s.requests[id].outcome.from == s.requests[id].client && s.requests[id].outcome.id == id)
  {
    RunKeeps(Init, acts);
  }

  /** Over any run, the visitor waits exactly as long as the outcome is open, and gets np's
      status exactly when it is one. A status that the server does not make up itself comes
      from np, by this very request and from the client it was sent to; so does a panic. */
  lemma StatusIsTheAnswer(acts: seq<Action>, id: Id)
    requires Legal(Init, acts) && id in After(Init, acts).requests
    ensures var r := After(Init, acts).requests[id]; var visit := VisitOf(Some(r.outcome));
            && (visit == Open <==> r.outcome.Waiting?)
            && (r.outcome.Completed? ==> r.outcome.from == r.client && r.outcome.id == id && r.answered)
            && (r.outcome.Completed? && r.outcome.payload.Data? ==>
                  var k := r.outcome.payload.status;
                  (visit == Status(k) <==> IsStatus(k)) && (visit == Panic <==> !IsStatus(k % 0x1_0000)))
            && (visit == Panic || (visit.Status? && visit.code !in {404, 500, 502, 504}) ==>
                  r.outcome.Completed? && r.outcome.payload.Data?)
  {
    RunKeeps(Init, acts);
  }

  /** A request's outcome is decided once. */
  lemma {:induction false} DecidedOnce(s: State, acts: seq<Action>, id: Id)
    requires Legal(s, acts) && id in s.requests
    ensures var s' := After(s, acts);
            && id in s'.requests && s'.requests[id].client == s.requests[id].client
            && (!s.requests[id].outcome.Waiting? ==> s'.requests[id].outcome == s.requests[id].outcome)
            && (s.requests[id].answered ==> s'.requests[id].answered)
    decreases |acts|
  {
    if acts != [] {
      DecidedOnce(Do(s, acts[0]), acts[1..], id);
    }
  }

  // ---------- what decides a request

  /** `a` decides the waiting request `id`, and the visitor gets this. */
  ghost predicate Decides(s: State, a: Action, id: Id, visit: Visit)
    requires id in s.requests
  {
    var c := s.requests[id].client;
    || (a == TimesOut(id) && visit == Status(504))
    || (a == SendFails(id) && visit == Status(404))
    || (a == Drops(c) && visit == Status(500))
    || (a == Responds(c, id, Error) && visit == Status(502))
    || (a == Responds(c, id, Empty) && visit == Status(500))
    || (a.Responds? && a.client == c && a.id == id && a.payload.Data?
        && visit == var k := a.payload.status % 0x1_0000; if 100 <= k <= 999 then Status(k) else Panic)
  }

  /** Each way to decide a waiting request leaves the visitor with its own response, whatever
      follows; nothing else decides it. */
  lemma DecidedAs(s: State, a: Action, id: Id, later: seq<Action>)
    requires Inv(s) && id in s.requests && s.requests[id].outcome.Waiting?
    requires CanDo(s, a) && Legal(Do(s, a), later)
    ensures id in Do(s, a).requests && id in After(Do(s, a), later).requests
    ensures forall visit :: Decides(s, a, id, visit) ==> VisitOf(Some(After(Do(s, a), later).requests[id].outcome)) == visit
    ensures (forall visit :: !Decides(s, a, id, visit)) ==> VisitOf(Some(Do(s, a).requests[id].outcome)) == Open
  {
    assert Owed(s, id, s.requests[id].client);
    DecidedOnce(Do(s, a), later, id);
    OneStepDecides(s, a, id);
  }

  lemma OneStepDecides(s: State, a: Action, id: Id)
    requires Inv(s) && id in s.requests && s.requests[id].outcome.Waiting? && CanDo(s, a)
    ensures id in Do(s, a).requests
    ensures forall visit :: Decides(s, a, id, visit) ==> VisitOf(Some(Do(s, a).requests[id].outcome)) == visit
    ensures (forall visit :: !Decides(s, a, id, visit)) ==> Do(s, a).requests[id].outcome.Waiting?
  {
    assert Owed(s, id, s.requests[id].client);
    var visit := VisitOf(Some(Do(s, a).requests[id].outcome));
    if !Do(s, a).requests[id].outcome.Waiting? {
      assert Decides(s, a, id, visit);
    }
  }

  /** A waiting request can be decided in any of these ways; its client is connected, and
      can answer unless its session is over. */
  lemma CanBeDecided(s: State, id: Id, payload: Payload)
    requires Inv(s) && id in s.requests && s.requests[id].outcome.Waiting?
    ensures var c := s.requests[id].client;
            && CanDo(s, TimesOut(id)) && CanDo(s, SendFails(id)) && CanDo(s, Drops(c))
            && (c !in s.ended ==> CanDo(s, Responds(c, id, payload)))
  {
  }

  /** A client that is new connects with nothing pending. */
  lemma Connected(s: State, c: ClientId)
    requires c !in s.pending && c !in s.ended
    ensures CanDo(s, Connects(c))
    ensures var s' := Do(s, Connects(c)); s'.pending == s.pending[c := {}] && s'.requests == s.requests && s'.ended == s.ended
  {
  }

  /** A request for a connected client waits, under its own id and for that client; without a
      client the visitor has a response at once. */
  lemma Enqueued(s: State, id: Id, c: ClientId)
    requires id !in s.requests && c in s.pending
    ensures CanDo(s, Enqueue(id, c))
    ensures var s' := Do(s, Enqueue(id, c));
            && id in s'.requests && s'.requests[id].client == c && VisitOf(Some(s'.requests[id].outcome)) == Open
            && s'.pending == s.pending[c := s.pending[c] + {id}]
            && (forall other :: other in s.requests ==> other in s'.requests && s'.requests[other] == s.requests[other])
    ensures VisitOf(None) == Status(404)
  {
  }

  /** A response touches no request but its own; if that one waits no more, because it timed
      out, say, nobody's outcome changes. Without an entry the client's session ends. */
  lemma ResponseTouchesOne(s: State, c: ClientId, id: Id, payload: Payload)
    requires Inv(s) && CanDo(s, Responds(c, id, payload))
    ensures var s' := Respond(s, c, id, payload);
            && s'.requests.Keys == s.requests.Keys
            && (forall other :: other in s.requests && other != id ==> s'.requests[other] == s.requests[other])
            && (forall d :: d in s.pending && d != c ==> d in s'.pending && s'.pending[d] == s.pending[d])
            && (id in s.requests && !s.requests[id].outcome.Waiting? ==> s'.requests[id].outcome == s.requests[id].outcome)
            && (c in s'.ended <==> !Owed(s, id, c))
            && (Owed(s, id, c) && s.requests[id].outcome.Waiting? ==> s'.requests[id].outcome == Completed(c, id, payload))
  {
  }
}
