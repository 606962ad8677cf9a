/** Nobody starves: an operation of the registry finishes in every fair run, however many
    operations others begin. What it waits for is measured by a `Delay`; the queues of the
    two locks make it fall. */
module RegistryFair {
  import opened Text
  import opened RegistryOps
  import opened RegistryInv
  import opened RegistryTheorems

  /** What still lies ahead of an operation: phases of its own, its place in the queue it is
      in, what the holders of the lock still do, and how long such a holder waits itself.
      The first counts most. */
  datatype Delay = Delay(own: nat, place: nat, hold: nat, deep: nat)

  predicate Less(d: Delay, e: Delay) {
    || d.own < e.own
    || (d.own == e.own && d.place < e.place)
    || (d.own == e.own && d.place == e.place && d.hold < e.hold)
    || (d.own == e.own && d.place == e.place && d.hold == e.hold && d.deep < e.deep)
  }

  predicate AtMost(d: Delay, e: Delay) {
    d == e || Less(d, e)
  }

  function Phases(stage: Stage): nat {
    match stage
    case Begin => 5
    case WantClients => 4
    case Scanning(_) | Removed | Dropped => 3
    case WantClaimed => 2
    case Reserved | Freeing => 1
    case Finished(_) | Found(_) => 0
  }

  function Unscanned(s: State, stage: Stage): nat {
    if stage.Scanning? && stage.next <= |s.clients| then |s.clients| - stage.next else 0
  }

  function JobsOf(s: State, os: set<OpId>): map<OpId, Job> {
    map o | o in os && o in s.jobs :: s.jobs[o]
  }

  /** What the holders of the client list still do: one deregister, or several lookups. */
  ghost function ListHold(s: State): nat {
    if s.writer.Some? && s.writer.value in s.jobs then Phases(s.jobs[s.writer.value].stage)
    else Remaining(JobsOf(s, s.readers), |s.clients|)
  }

  /** The place in the other queue of a deregister that holds the client list. */
  function ListDeep(s: State): nat {
    if s.writer.Some? && s.writer.value in s.claimedQueue then IndexOf(s.claimedQueue, s.writer.value) else 0
  }

  ghost function DelayOf(s: State, o: OpId): Delay
    requires o in s.jobs
  {
    match s.jobs[o].stage
    case WantClients => Delay(4, IndexOf(s.clientsQueue, o), ListHold(s), ListDeep(s))
    case WantClaimed => Delay(2, IndexOf(s.claimedQueue, o), if s.claimedBy.Some? then 1 else 0, 0)
    case stage => Delay(Phases(stage), Unscanned(s, stage), 0, 0)
  }

  predicate Done(s: State, o: OpId) {
    o in s.jobs && Over(s.jobs[o].stage)
  }

  /** `o` is over, or nearer its end than it was. */
  ghost predicate Nearer(s: State, s': State, o: OpId)
    requires o in s.jobs
  {
    o in s'.jobs && (Over(s'.jobs[o].stage) || Less(DelayOf(s', o), DelayOf(s, o)))
  }

  ghost predicate NotFurther(s: State, s': State, o: OpId)
    requires o in s.jobs
  {
    o in s'.jobs && (Over(s'.jobs[o].stage) || AtMost(DelayOf(s', o), DelayOf(s, o)))
  }

  // ---------- what a step does to its own job

  /** The job enters a later phase, or a lookup passes a client; the list stays while it is
      being read. */
  predicate MovesOn(s: State, s': State, p: OpId) {
    && p in s.jobs && p in s'.jobs
    && (s'.clients == s.clients || s.readers == {})
    && var st, st' := s.jobs[p].stage, s'.jobs[p].stage;
       && (Phases(st') < Phases(st) ||
           (st.Scanning? && st.next < |s.clients| && st' == Scanning(st.next + 1) && s'.clients == s.clients))
       && (st'.Scanning? || HoldsList(s'.jobs[p]) ==> st.Scanning? || HoldsList(s.jobs[p]) || st.WantClients?)
       && (st'.Freeing? ==> st.WantClaimed?)
  }

  lemma RegisterOn(s: State, o: OpId, c: ClientId)
    requires CanAdvance(s, o) && s.jobs[o].op == Register(c) && Fits(s.jobs[o].op, s.jobs[o].stage)
    ensures MovesOn(s, StepRegister(s, o, c), o)
  {
  }

  lemma ClaimOn(s: State, o: OpId, c: ClientId, h: Host)
    requires CanAdvance(s, o) && s.jobs[o].op == Claim(c, h) && Fits(s.jobs[o].op, s.jobs[o].stage)
    ensures MovesOn(s, StepClaim(s, o, c, h), o)
  {
  }

  lemma ReleaseOn(s: State, o: OpId, c: ClientId, h: Host)
    requires CanAdvance(s, o) && s.jobs[o].op == Release(c, h) && Fits(s.jobs[o].op, s.jobs[o].stage)
    ensures MovesOn(s, StepRelease(s, o, c, h), o)
  {
  }

  lemma DeregisterOn(s: State, o: OpId, c: ClientId)
    requires CanAdvance(s, o) && s.jobs[o].op == Deregister(c) && Fits(s.jobs[o].op, s.jobs[o].stage)
    ensures MovesOn(s, StepDeregister(s, o, c), o)
  {
  }

  lemma LookupOn(s: State, o: OpId, h: Host)
    requires CanAdvance(s, o) && s.jobs[o].op == Lookup(h) && Fits(s.jobs[o].op, s.jobs[o].stage)
    ensures MovesOn(s, StepLookup(s, o, h), o)
  {
  }

  lemma GoesOn(s: State, o: OpId)
    requires CanAdvance(s, o) && Fits(s.jobs[o].op, s.jobs[o].stage)
    ensures MovesOn(s, Advance(s, o), o)
  {
    match s.jobs[o].op
    case Register(c) => RegisterOn(s, o, c);
    case Claim(c, h) => ClaimOn(s, o, c, h);
    case Release(c, h) => ReleaseOn(s, o, c, h);
    case Deregister(c) => DeregisterOn(s, o, c);
    case Lookup(h) => LookupOn(s, o, h);
  }

  // ---------- places in a queue

  lemma {:induction false} IndexSnoc(q: seq<OpId>, o: OpId, p: OpId)
    requires o in q
    ensures IndexOf(q + [p], o) == IndexOf(q, o)
  {
    if q[0] != o {
      assert (q + [p])[1..] == q[1..] + [p];
      IndexSnoc(q[1..], o, p);
    }
  }

  /** How a step of `p` moves another job's place. */
  lemma PlaceMoves(q: seq<OpId>, q': seq<OpId>, p: OpId, was: bool, now: bool, o: OpId)
    requires QueueMoves(q, q', p, was, now) && o in q && o != p
    ensures IndexOf(q', o) <= IndexOf(q, o)
    ensures was && !now ==> IndexOf(q', o) < IndexOf(q, o)
    ensures was == now || now ==> IndexOf(q', o) == IndexOf(q, o)
  {
    if now && !was {
      IndexSnoc(q, o, p);
    }
  }

  // ---------- lookups that read the list

  lemma ReaderGone(s: State, s': State, p: OpId)
    requires p in s.readers && p in s.jobs && s'.readers == s.readers - {p} && s'.clients == s.clients
    requires p in s'.jobs && s'.jobs == s.jobs[p := s'.jobs[p]] && s.jobs[p].stage.Scanning?
    ensures Remaining(JobsOf(s', s'.readers), |s'.clients|) < Remaining(JobsOf(s, s.readers), |s.clients|)
  {
    TakeOne(JobsOf(s, s.readers), |s.clients|, p);
    assert JobsOf(s', s'.readers) == JobsOf(s, s.readers) - {p};
  }

  lemma ReaderGoes(s: State, s': State, p: OpId)
    requires p in s.readers && p in s.jobs && s'.readers == s.readers && s'.clients == s.clients
    requires p in s'.jobs && s'.jobs == s.jobs[p := s'.jobs[p]]
    requires Rank(s'.jobs[p], |s.clients|) < Rank(s.jobs[p], |s.clients|)
    ensures Remaining(JobsOf(s', s'.readers), |s'.clients|) < Remaining(JobsOf(s, s.readers), |s.clients|)
  {
    TakeOne(JobsOf(s, s.readers), |s.clients|, p);
    TakeOne(JobsOf(s', s'.readers), |s.clients|, p);
    assert JobsOf(s', s'.readers) - {p} == JobsOf(s, s.readers) - {p};
  }

  lemma ReadersStay(s: State, s': State)
    requires s'.readers == s.readers && (s'.clients == s.clients || s.readers == {})
    requires forall o :: o in s.readers ==> o in s.jobs && o in s'.jobs && s'.jobs[o] == s.jobs[o]
    ensures Remaining(JobsOf(s', s'.readers), |s'.clients|) == Remaining(JobsOf(s, s.readers), |s.clients|)
  {
    assert JobsOf(s', s'.readers) == JobsOf(s, s.readers);
    if s.readers == {} {
      assert JobsOf(s, s.readers) == map[];
    }
  }

  // ---------- the holders of the client list

  /** `p` is one of those who hold up the queue for the client list: a holder of the list,
      or who is first in the queue a holder waits in. */
  predicate HoldsUp(s: State, p: OpId) {
    || s.writer == Some(p) || p in s.readers
    || (s.writer.Some? && s.writer.value in s.claimedQueue && s.claimedQueue[0] == p)
  }

  /** `(hold, deep)` of the client list falls or stays. */
  ghost predicate HoldFalls(s: State, s': State) {
    ListHold(s') < ListHold(s) || (ListHold(s') == ListHold(s) && ListDeep(s') < ListDeep(s))
  }

  ghost predicate HoldStays(s: State, s': State) {
    ListHold(s') == ListHold(s) && ListDeep(s') == ListDeep(s)
  }

  lemma WriterHolds(s: State, s': State, p: OpId)
    requires Locks(s) && MovesLocks(s, s', p) && MovesOn(s, s', p) && s.writer == Some(p)
    ensures HoldFalls(s, s')
  {
    assert p in s.jobs && HoldsList(s.jobs[p]);
    if s'.writer == None {
      assert s'.readers == {};
      assert JobsOf(s', s'.readers) == map[];
    }
  }

  lemma ReaderHolds(s: State, s': State, p: OpId)
    requires Locks(s) && MovesLocks(s, s', p) && MovesOn(s, s', p) && p in s.readers
    ensures HoldFalls(s, s')
  {
    assert s.jobs[p].stage.Scanning? && s.writer == None && s'.clients == s.clients;
    if s'.jobs[p].stage.Scanning? {
      ReaderGoes(s, s', p);
    } else {
      ReaderGone(s, s', p);
    }
  }

  /** A step of one that neither holds the list nor gets it. */
  lemma OtherHolds(s: State, s': State, p: OpId)
    requires Locks(s) && MovesLocks(s, s', p) && MovesOn(s, s', p)
    requires s.writer != Some(p) && p !in s.readers && !(s.jobs[p].stage.WantClients? && !s'.jobs[p].stage.WantClients?)
    requires s'.writer == s.writer && s'.readers == s.readers
    ensures HoldStays(s, s') || HoldFalls(s, s')
    ensures HoldsUp(s, p) ==> HoldFalls(s, s')
  {
    if s.writer.Some? {
      var w := s.writer.value;
      if w in s.claimedQueue {
        PlaceMoves(s.claimedQueue, s'.claimedQueue, p, s.jobs[p].stage.WantClaimed?, s'.jobs[p].stage.WantClaimed?, w);
      }
    } else {
      ReadersStay(s, s');
    }
  }

  // ---------- a step of another job

  lemma AnyHolds(s: State, s': State, p: OpId)
    requires Locks(s) && MovesLocks(s, s', p) && MovesOn(s, s', p)
    requires !(s.jobs[p].stage.WantClients? && !s'.jobs[p].stage.WantClients?)
    ensures HoldStays(s, s') || HoldFalls(s, s')
    ensures HoldsUp(s, p) ==> HoldFalls(s, s')
  {
    if s.writer == Some(p) {
      WriterHolds(s, s', p);
    } else if p in s.readers {
      ReaderHolds(s, s', p);
    } else {
      assert !HoldsList(s.jobs[p]) && !s.jobs[p].stage.Scanning?;
      OtherHolds(s, s', p);
    }
  }

  /** `o` waits for the client list. */
  lemma WaitsForList(s: State, s': State, p: OpId, o: OpId)
    requires Locks(s) && MovesLocks(s, s', p) && MovesOn(s, s', p)
    requires o != p && o in s.jobs && s.jobs[o].stage.WantClients?
    ensures o in s'.jobs && AtMost(DelayOf(s', o), DelayOf(s, o))
    ensures s.clientsQueue[0] == p || HoldsUp(s, p) ==> Less(DelayOf(s', o), DelayOf(s, o))
  {
    assert s'.jobs[o] == s.jobs[o];
    PlaceMoves(s.clientsQueue, s'.clientsQueue, p, s.jobs[p].stage.WantClients?, s'.jobs[p].stage.WantClients?, o);
    if !(s.jobs[p].stage.WantClients? && !s'.jobs[p].stage.WantClients?) {
      AnyHolds(s, s', p);
    }
  }

  /** `o` waits for the claimed names. */
  lemma WaitsForClaimed(s: State, s': State, p: OpId, o: OpId)
    requires Locks(s) && MovesLocks(s, s', p) && MovesOn(s, s', p)
    requires o != p && o in s.jobs && s.jobs[o].stage.WantClaimed?
    ensures o in s'.jobs && AtMost(DelayOf(s', o), DelayOf(s, o))
    ensures s.claimedQueue[0] == p || s.claimedBy == Some(p) ==> Less(DelayOf(s', o), DelayOf(s, o))
  {
    assert s'.jobs[o] == s.jobs[o];
    PlaceMoves(s.claimedQueue, s'.claimedQueue, p, s.jobs[p].stage.WantClaimed?, s'.jobs[p].stage.WantClaimed?, o);
  }

  /** `o` waits for nobody. */
  lemma WaitsForNobody(s: State, s': State, p: OpId, o: OpId)
    requires Locks(s) && MovesLocks(s, s', p) && MovesOn(s, s', p)
    requires o != p && o in s.jobs && !s.jobs[o].stage.WantClients? && !s.jobs[o].stage.WantClaimed?
    ensures o in s'.jobs && DelayOf(s', o) == DelayOf(s, o)
  {
    assert s'.jobs[o] == s.jobs[o];
  }

  lemma OwnStep(s: State, s': State, o: OpId)
    requires MovesLocks(s, s', o) && MovesOn(s, s', o)
    ensures Nearer(s, s', o)
  {
  }

  // ---------- operations begin

  /** However many operations begin, they delay nobody. */
  lemma BeginsDelayNobody(s: State, b: OpId, op: Op, o: OpId)
    requires Locks(s) && CanStart(s, b, op) && o in s.jobs
    ensures o in Start(s, b, op).jobs && DelayOf(Start(s, b, op), o) == DelayOf(s, o)
  {
    assert JobsOf(Start(s, b, op), s.readers) == JobsOf(s, s.readers);
  }

  // ---------- who can help

  /** `p` can take a step, and that brings `o` nearer its end. */
  predicate Helps(s: State, o: OpId, p: OpId) {
    && o in s.jobs && CanAdvance(s, p)
    && (p == o
        || (s.jobs[o].stage.WantClients? && ((s.clientsQueue != [] && s.clientsQueue[0] == p) || HoldsUp(s, p)))
        || (s.jobs[o].stage.WantClaimed? && ((s.claimedQueue != [] && s.claimedQueue[0] == p) || s.claimedBy == Some(p))))
  }

  /** No step delays an operation. */
  lemma StepsDelayNobody(s: State, a: Action, o: OpId)
    requires Inv(s) && CanDo(s, a) && o in s.jobs && !Over(s.jobs[o].stage)
    ensures NotFurther(s, Do(s, a), o)
    ensures a.Goes? && Helps(s, o, a.id) ==> Nearer(s, Do(s, a), o)
  {
    match a
    case Begins(b, op) => BeginsDelayNobody(s, b, op, o);
    case Goes(p) =>
      assert Rightful(s, p);
      AdvanceMoves(s, p);
      GoesOn(s, p);
      AnyStep(s, Advance(s, p), p, o);
  }

  lemma AnyStep(s: State, s': State, p: OpId, o: OpId)
    requires Locks(s) && MovesLocks(s, s', p) && MovesOn(s, s', p) && o in s.jobs
    ensures NotFurther(s, s', o) && (Helps(s, o, p) ==> Nearer(s, s', o))
  {
    if o == p {
      OwnStep(s, s', o);
    } else if s.jobs[o].stage.WantClients? {
      WaitsForList(s, s', p, o);
    } else if s.jobs[o].stage.WantClaimed? {
      WaitsForClaimed(s, s', p, o);
    } else {
      WaitsForNobody(s, s', p, o);
    }
  }

  /** Somebody can always help. */
  lemma HelperExists(s: State, o: OpId)
    requires Inv(s) && o in s.jobs && !Over(s.jobs[o].stage)
    ensures exists p :: Helps(s, o, p)
  {
    if s.jobs[o].stage.WantClaimed? {
      assert o in s.claimedQueue;
      ClaimedHelper(s, o);
    } else if s.jobs[o].stage.WantClients? {
      assert o in s.clientsQueue;
      ListHelper(s, o);
    } else {
      assert Helps(s, o, o);
    }
  }

  /** Who holds the claimed names, or is first to get them, can go on. */
  lemma ClaimedHelper(s: State, o: OpId)
    requires Locks(s) && o in s.jobs && s.jobs[o].stage.WantClaimed?
    ensures exists p :: Helps(s, o, p)
  {
    assert o in s.claimedQueue;
    if s.claimedBy.Some? {
      assert Helps(s, o, s.claimedBy.value);
    } else {
      assert s.claimedQueue[0] in s.claimedQueue;
      assert Helps(s, o, s.claimedQueue[0]);
    }
  }

  lemma ListHelper(s: State, o: OpId)
    requires Inv(s) && o in s.jobs && s.jobs[o].stage.WantClients?
    ensures exists p :: Helps(s, o, p)
  {
    assert o in s.clientsQueue;
    if s.writer.Some? {
      WriterHelper(s, o, s.writer.value);
    } else if s.readers != {} {
      var p :| p in s.readers;
      assert Helps(s, o, p);
    } else {
      assert s.clientsQueue[0] in s.clientsQueue;
      assert Helps(s, o, s.clientsQueue[0]);
    }
  }

  /** Only a deregister holds the claimed names beyond a step, and it holds the list too. */
  lemma FreeingIsWriter(s: State)
    requires Inv(s)
    ensures s.claimedBy.Some? ==> s.writer == s.claimedBy && s.jobs[s.claimedBy.value].stage.Freeing?
  {
    if s.claimedBy.Some? {
      assert Rightful(s, s.claimedBy.value);
    }
  }

  lemma WriterHelper(s: State, o: OpId, w: OpId)
    requires Inv(s) && o in s.jobs && s.jobs[o].stage.WantClients? && s.writer == Some(w)
    ensures exists p :: Helps(s, o, p)
  {
    assert HoldsList(s.jobs[w]);
    if s.jobs[w].stage.WantClaimed? {
      assert w in s.claimedQueue;
      FreeingIsWriter(s);
      assert s.claimedQueue[0] in s.claimedQueue;
      assert Helps(s, o, s.claimedQueue[0]);
    } else {
      assert Helps(s, o, w);
    }
  }

  /** A helper stays one until it takes its step, or `o` takes one itself. */
  lemma HelperStays(s: State, a: Action, o: OpId, p: OpId)
    requires Inv(s) && CanDo(s, a) && Helps(s, o, p) && a != Goes(p) && a != Goes(o)
    ensures Helps(Do(s, a), o, p)
  {
    match a
    case Begins(b, op) => BeginsLeavesHelp(s, b, op, o, p);
    case Goes(q) =>
      assert Rightful(s, q);
      AdvanceMoves(s, q);
      GoesOn(s, q);
      StillAdvances(s, Advance(s, q), q, p);
      StillHelps(s, Advance(s, q), q, o, p);
  }

  lemma BeginsLeavesHelp(s: State, b: OpId, op: Op, o: OpId, p: OpId)
    requires CanStart(s, b, op) && Helps(s, o, p)
    ensures Helps(Start(s, b, op), o, p)
  {
  }

  /** The step of `q` leaves a first place to whom it belongs. */
  lemma FirstStays(q0: seq<OpId>, q1: seq<OpId>, q: OpId, was: bool, now: bool, p: OpId)
    requires QueueMoves(q0, q1, q, was, now) && q0 != [] && q0[0] == p && p != q
    ensures q1 != [] && q1[0] == p && (now || !was)
  {
  }

  lemma StillAdvances(s: State, s': State, q: OpId, p: OpId)
    requires MovesLocks(s, s', q) && MovesOn(s, s', q) && p != q && CanAdvance(s, p)
    requires Locks(s)
    ensures CanAdvance(s', p)
  {
    assert s'.jobs[p] == s.jobs[p];
    match s.jobs[p].stage
    case WantClients =>
      FirstStays(s.clientsQueue, s'.clientsQueue, q, s.jobs[q].stage.WantClients?, s'.jobs[q].stage.WantClients?, p);
    case WantClaimed =>
      FirstStays(s.claimedQueue, s'.claimedQueue, q, s.jobs[q].stage.WantClaimed?, s'.jobs[q].stage.WantClaimed?, p);
    case _ =>
  }

  lemma StillHelps(s: State, s': State, q: OpId, o: OpId, p: OpId)
    requires Locks(s) && MovesLocks(s, s', q) && MovesOn(s, s', q) && p != q && o != q && Helps(s, o, p) && CanAdvance(s', p)
    ensures Helps(s', o, p)
  {
    assert s'.jobs[o] == s.jobs[o] && s'.jobs[p] == s.jobs[p];
    if s.clientsQueue != [] && s.clientsQueue[0] == p {
      FirstStays(s.clientsQueue, s'.clientsQueue, q, s.jobs[q].stage.WantClients?, s'.jobs[q].stage.WantClients?, p);
    }
    if s.claimedQueue != [] && s.claimedQueue[0] == p {
      FirstStays(s.claimedQueue, s'.claimedQueue, q, s.jobs[q].stage.WantClaimed?, s'.jobs[q].stage.WantClaimed?, p);
      if s.writer.Some? && s.writer.value in s.claimedQueue {
        WriterStays(s, s', q);
      }
    }
  }

  lemma WriterStays(s: State, s': State, q: OpId)
    requires Locks(s) && MovesLocks(s, s', q) && MovesOn(s, s', q)
    requires s.writer.Some? && s.writer.value in s.claimedQueue && s.claimedQueue[0] != q
    ensures s'.writer == s.writer && s.writer.value in s'.claimedQueue
  {
    var w := s.writer.value;
    assert s.jobs[w].stage.WantClaimed? && HoldsList(s.jobs[w]);
    QueueKeeps(s.claimedQueue, s'.claimedQueue, q, s.jobs[q].stage.WantClaimed?, s'.jobs[q].stage.WantClaimed?);
  }

  // ---------- runs without end

  /** A run without end: the states, and the steps between them. */
  ghost predicate IsLongRun(b: nat -> State, acts: nat -> Action) {
    b(0) == Init && forall i: nat :: CanDo(b(i), acts(i)) && Do(b(i), acts(i)) == b(i + 1)
  }

  /** A job that can go on from some instant for ever goes on at last. */
  ghost predicate Fair(b: nat -> State, acts: nat -> Action) {
    forall i: nat, p :: StaysAble(b, i, p) ==> GoesLater(acts, i, p)
  }

  ghost predicate StaysAble(b: nat -> State, i: nat, p: OpId) {
    forall j: nat :: i <= j ==> CanAdvance(b(j), p)
  }

  ghost predicate GoesLater(acts: nat -> Action, i: nat, p: OpId) {
    exists j: nat :: i <= j && acts(j) == Goes(p)
  }

  lemma {:induction false} LongRunKeeps(b: nat -> State, acts: nat -> Action, i: nat)
    requires IsLongRun(b, acts)
    ensures Inv(b(i))
  {
    if i == 0 {
      InitInv();
    } else {
      LongRunKeeps(b, acts, i - 1);
      assert CanDo(b(i - 1), acts(i - 1)) && Do(b(i - 1), acts(i - 1)) == b(i - 1 + 1);
      StepKeeps(b(i - 1), acts(i - 1));
    }
  }

  /** At some instant from `i` to `j` the operation is over, or nearer its end than at `i`. */
  ghost predicate Gains(b: nat -> State, i: nat, j: nat, o: OpId)
    requires o in b(i).jobs
  {
    exists k: nat :: i <= k <= j && Nearer(b(i), b(k), o)
  }

  /** Until it gains, the operation keeps its delay and its helper. */
  lemma {:induction false} Watch(b: nat -> State, acts: nat -> Action, i: nat, j: nat, o: OpId, p: OpId)
    requires IsLongRun(b, acts) && i <= j && Helps(b(i), o, p) && !Over(b(i).jobs[o].stage)
    ensures Gains(b, i, j, o) ||
            (Helps(b(j), o, p) && !Over(b(j).jobs[o].stage) && AtMost(DelayOf(b(j), o), DelayOf(b(i), o)))
    decreases j
  {
    if i < j {
      var k := j - 1;
      Watch(b, acts, i, k, o, p);
      if Gains(b, i, k, o) {
        GainsLater(b, i, k, o);
      } else {
        assert CanDo(b(k), acts(k)) && Do(b(k), acts(k)) == b(k + 1);
        LongRunKeeps(b, acts, k);
        WatchOne(b(i), b(k), acts(k), o, p);
        assert Nearer(b(i), b(j), o) ==> Gains(b, i, j, o);
      }
    }
  }

  lemma GainsLater(b: nat -> State, i: nat, k: nat, o: OpId)
    requires o in b(i).jobs && Gains(b, i, k, o)
    ensures Gains(b, i, k + 1, o)
  {
    var l: nat :| i <= l <= k && Nearer(b(i), b(l), o);
  }

  /** One more step, since an instant `s0` at which `o` was no nearer its end than at `s`. */
  lemma WatchOne(s0: State, s: State, a: Action, o: OpId, p: OpId)
    requires Inv(s) && CanDo(s, a) && Helps(s, o, p) && !Over(s.jobs[o].stage)
    requires o in s0.jobs && AtMost(DelayOf(s, o), DelayOf(s0, o))
    ensures Nearer(s0, Do(s, a), o) ||
            (a != Goes(p) && Helps(Do(s, a), o, p) && !Over(Do(s, a).jobs[o].stage)
             && AtMost(DelayOf(Do(s, a), o), DelayOf(s0, o)))
  {
    StepsDelayNobody(s, a, o);
    if a == Goes(o) {
      assert Helps(s, o, o);
    } else if a != Goes(p) {
      HelperStays(s, a, o, p);
    }
  }

  /** In a fair run an unfinished operation always comes nearer its end. */
  lemma Progress(b: nat -> State, acts: nat -> Action, i: nat, o: OpId) returns (j: nat)
    requires IsLongRun(b, acts) && Fair(b, acts) && o in b(i).jobs && !Over(b(i).jobs[o].stage)
    ensures i <= j && Nearer(b(i), b(j), o)
  {
    LongRunKeeps(b, acts, i);
    HelperExists(b(i), o);
    var p :| Helps(b(i), o, p);
    var k: nat;
    if StaysAble(b, i, p) {
      assert GoesLater(acts, i, p);
      var l: nat :| i <= l && acts(l) == Goes(p);
      Watch(b, acts, i, l, o, p);
      if !Gains(b, i, l, o) {
        assert CanDo(b(l), acts(l)) && Do(b(l), acts(l)) == b(l + 1);
        LongRunKeeps(b, acts, l);
        WatchOne(b(i), b(l), acts(l), o, p);
        return l + 1;
      }
      k := l;
    } else {
      k :| i <= k && !CanAdvance(b(k), p);
      Watch(b, acts, i, k, o, p);
    }
    j :| i <= j <= k && Nearer(b(i), b(j), o);
  }

  /** No operation starves: in a fair run each one that begins finishes, whatever others
      begin meanwhile. */
  lemma {:induction false} EveryOperationFinishes(b: nat -> State, acts: nat -> Action, i: nat, o: OpId) returns (j: nat)
    requires IsLongRun(b, acts) && Fair(b, acts) && o in b(i).jobs
    ensures i <= j && Done(b(j), o)
    decreases DelayOf(b(i), o).own, DelayOf(b(i), o).place, DelayOf(b(i), o).hold, DelayOf(b(i), o).deep
  {
    if Over(b(i).jobs[o].stage) {
      return i;
    }
    var k := Progress(b, acts, i, o);
    if Over(b(k).jobs[o].stage) {
      return k;
    }
    j := EveryOperationFinishes(b, acts, k, o);
  }
}
