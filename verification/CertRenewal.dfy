/** Certificate renewal: concurrent calls of `renew` around one lock. */
module CertRenewal {
  import opened Text
  import opened Expiration

  type CallId = nat

  datatype Domain = Root | Wildcard

  /** A cached certificate, as `cert_expiration` sees it. */
  datatype Cached = Readable(expires: Time) | Unreadable

  /** `MINIMUM_CERT_RENEW_DURATION`, 30 days. */
  const RENEW_SECONDS: Time := 2592000

  datatype Phase =
    | CheckRoot | CheckWildcard              // should_renew, without the lock
    | WantLock
    | Locked(next: Domain)                   // about to check again, under the lock
    | Requesting(domain: Domain)
    | Done(ok: bool)

  datatype State = State(certs: map<Domain, Cached>, now: Time, lock: Option<CallId>, calls: map<CallId, Phase>)

  /** `should_renew_cert` is false. */
  predicate Fresh(s: State, d: Domain) {
    d in s.certs && s.certs[d].Readable? && !(s.certs[d].expires < s.now + RENEW_SECONDS)
  }

  datatype Action =
    | Calls(id: CallId)
    | Checks(id: CallId)                     // one read of the certificates
    | Locks(id: CallId)
    | Issued(id: CallId, got: Option<Cached>)
    | Loads(domain: Domain, cert: Cached)    // load, reading a stored certificate
    | Passes(seconds: nat)

  predicate CanDo(s: State, a: Action) {
    match a
    case Calls(c) => c !in s.calls
    case Checks(c) => c in s.calls && (s.calls[c].CheckRoot? || s.calls[c].CheckWildcard? || s.calls[c].Locked?)
    case Locks(c) => c in s.calls && s.calls[c].WantLock? && s.lock == None
    case Issued(c, _) => c in s.calls && s.calls[c].Requesting?
    case Loads(_, _) => true
    case Passes(_) => true
  }

  function To(s: State, c: CallId, p: Phase): State {
    s.(calls := s.calls[c := p])
  }

  /** Root is done with: on to the wildcard, or out of the loop, giving the lock back. */
  function NextDomain(s: State, c: CallId, d: Domain): State {
    if d.Root? then To(s, c, Locked(Wildcard)) else To(s, c, Done(true)).(lock := None)
  }

  function Check(s: State, c: CallId): State
    requires CanDo(s, Checks(c))
  {
    match s.calls[c]
    case CheckRoot => if Fresh(s, Root) then To(s, c, CheckWildcard) else To(s, c, WantLock)
    case CheckWildcard => if Fresh(s, Wildcard) then To(s, c, Done(true)) else To(s, c, WantLock)
    case Locked(d) => if Fresh(s, d) then NextDomain(s, c, d) else To(s, c, Requesting(d))
  }

  function Do(s: State, a: Action): State
    requires CanDo(s, a)
  {
    match a
    case Calls(c) => To(s, c, CheckRoot)
    case Checks(c) => Check(s, c)
    case Locks(c) => To(s, c, Locked(Root)).(lock := Some(c))
    case Issued(c, got) =>
      if got == None then To(s, c, Done(false)).(lock := None)
      else NextDomain(s.(certs := s.certs[s.calls[c].domain := got.value]), c, s.calls[c].domain)
    case Loads(d, cert) => s.(certs := s.certs[d := cert])
    case Passes(n) => s.(now := s.now + n)
  }

  predicate Legal(s: State, acts: seq<Action>)
    decreases |acts|
  {
    acts == [] || (CanDo(s, acts[0]) && Legal(Do(s, acts[0]), acts[1..]))
  }

  function After(s: State, acts: seq<Action>): State
    requires Legal(s, acts)
    decreases |acts|
  {
    if acts == [] then s else After(Do(s, acts[0]), acts[1..])
  }

  /** Fresh is what has 30 days left. */
  lemma FreshIff(s: State, d: Domain)
    ensures Fresh(s, d) <==> d in s.certs && s.certs[d].Readable? && s.now + 30 * 24 * 60 * 60 <= s.certs[d].expires
  {
  }

  ghost predicate Next(s: State, s': State) {
    exists a :: CanDo(s, a) && Do(s, a) == s'
  }

  ghost predicate NextAt(b: seq<State>, i: nat) {
    i + 1 < |b| && Next(b[i], b[i + 1])
  }

  ghost predicate IsRun(b: seq<State>) {
    && b != [] && b[0].calls == map[] && b[0].lock == None
    && forall i :: 0 <= i < |b| - 1 ==> NextAt(b, i)
  }

  lemma RunNext(b: seq<State>, k: nat)
    requires IsRun(b) && k + 1 < |b|
    ensures Next(b[k], b[k + 1])
  {
    assert NextAt(b, k);
  }

  // ---------- mutual exclusion

  ghost predicate LockOk(s: State) {
    forall c :: s.lock == Some(c) <==> c in s.calls && (s.calls[c].Locked? || s.calls[c].Requesting?)
  }

  lemma {:induction false} RunLockOk(b: seq<State>, i: nat)
    requires IsRun(b) && i < |b|
    ensures LockOk(b[i])
  {
    if i > 0 {
      RunLockOk(b, i - 1);
      RunNext(b, i - 1);
    }
  }

  /** At most one certificate is being requested at any time. */
  lemma OneRequest(b: seq<State>, i: nat, c: CallId, d: CallId)
    requires IsRun(b) && i < |b| && c in b[i].calls && d in b[i].calls
    requires b[i].calls[c].Requesting? && b[i].calls[d].Requesting?
    ensures c == d
  {
    RunLockOk(b, i);
  }

  /** A certificate is requested only by the holder of the lock, for a domain whose cached
      certificate was missing, unreadable or within 30 days of its expiry at that check. */
  lemma RequestedWhenStale(b: seq<State>, i: nat, c: CallId, d: Domain)
    requires IsRun(b) && i + 1 < |b| && c in b[i + 1].calls && b[i + 1].calls[c] == Requesting(d)
    requires !(c in b[i].calls && b[i].calls[c] == Requesting(d))
    ensures b[i].lock == Some(c) && !Fresh(b[i], d)
    ensures d in b[i].certs && b[i].certs[d].Readable? ==> b[i].certs[d].expires < b[i].now + 30 * 24 * 60 * 60
  {
    RunLockOk(b, i);
    RunNext(b, i);
  }

  // ---------- after Ok

  /** Call `c`, which had asked for one, has just got a certificate for `d` and stored it. */
  ghost predicate Renews(s: State, s': State, c: CallId, d: Domain) {
    && c in s.calls && s.calls[c] == Requesting(d) && c in s'.calls && s'.calls[c] != Requesting(d)
    && s'.calls[c] != Done(false)
    && d in s'.certs && s'.certs == s.certs[d := s'.certs[d]]
  }

  /** Certificates change only by loading stored ones and by storing what was issued to a call
      that asked for it: that one, for the domain it asked for. */
  lemma CertsChange(s: State, a: Action)
    requires CanDo(s, a) && !a.Loads?
    ensures Do(s, a).certs == if a.Issued? && a.got.Some? then s.certs[s.calls[a.id].domain := a.got.value] else s.certs
    ensures a.Issued? ==> s.calls[a.id].Requesting?
  {
  }

  /** Between instants `i` and `j` the certificate of `d` was fresh or `c` renewed it. */
  ghost predicate Settled(b: seq<State>, i: nat, j: nat, c: CallId, d: Domain) {
    exists k :: i <= k <= j < |b| && (Fresh(b[k], d) || (k < j && Renews(b[k], b[k + 1], c, d)))
  }

  lemma SettledNext(b: seq<State>, i: nat, j: nat, c: CallId, d: Domain)
    requires i <= j && j + 1 < |b|
    requires Settled(b, i, j, c, d) || Fresh(b[j], d) || Renews(b[j], b[j + 1], c, d)
    ensures Settled(b, i, j + 1, c, d)
  {
    var k :| i <= k <= j && (Fresh(b[k], d) || Renews(b[k], b[k + 1], c, d));
    assert Fresh(b[k], d) || (k < j + 1 && Renews(b[k], b[k + 1], c, d));
  }

  predicate RootDone(p: Phase) {
    p.CheckWildcard? || p == Locked(Wildcard) || p == Requesting(Wildcard) || p == Done(true)
  }

  ghost predicate Progress(b: seq<State>, i: nat, j: nat, c: CallId)
    requires i <= j < |b| && c in b[j].calls
  {
    && (RootDone(b[j].calls[c]) ==> Settled(b, i, j, c, Root))
    && (b[j].calls[c] == Done(true) ==> Settled(b, i, j, c, Wildcard))
  }

  /** What one step of the call itself settles. */
  lemma StepSettles(s: State, s': State, c: CallId)
    requires Next(s, s') && c in s.calls
    ensures c in s'.calls
    ensures s.calls[c] == Done(true) ==> s'.calls[c] == Done(true)
    ensures RootDone(s'.calls[c]) && !RootDone(s.calls[c]) ==> Fresh(s, Root) || Renews(s, s', c, Root)
    ensures s'.calls[c] == Done(true) && s.calls[c] != Done(true) ==>
      RootDone(s.calls[c]) && (Fresh(s, Wildcard) || Renews(s, s', c, Wildcard))
  {
    var a :| CanDo(s, a) && Do(s, a) == s';
  }

  lemma ProgressStep(b: seq<State>, i: nat, j: nat, c: CallId)
    requires i <= j && j + 1 < |b| && c in b[j].calls && Progress(b, i, j, c)
    requires Next(b[j], b[j + 1])
    ensures c in b[j + 1].calls && Progress(b, i, j + 1, c)
  {
    StepSettles(b[j], b[j + 1], c);
    if RootDone(b[j + 1].calls[c]) {
      SettledNext(b, i, j, c, Root);
    }
    if b[j + 1].calls[c] == Done(true) {
      SettledNext(b, i, j, c, Wildcard);
    }
  }

  /** `c` is known at `j`, and has made progress since `i`. */
  ghost predicate Underway(b: seq<State>, i: nat, j: nat, c: CallId) {
    i <= j < |b| && c in b[j].calls && Progress(b, i, j, c)
  }

  lemma UnderwayNext(b: seq<State>, i: nat, j: nat, c: CallId)
    requires IsRun(b) && j + 1 < |b| && Underway(b, i, j, c)
    ensures Underway(b, i, j + 1, c)
  {
    RunNext(b, j);
    ProgressStep(b, i, j, c);
  }

  lemma {:induction false} CallProgress(b: seq<State>, i: nat, j: nat, c: CallId)
    requires IsRun(b) && i <= j < |b| && c in b[i].calls && b[i].calls[c] == CheckRoot
    ensures Underway(b, i, j, c)
    decreases j
  {
    if i < j {
      CallProgress(b, i, j - 1, c);
      UnderwayNext(b, i, j - 1, c);
    }
  }

  /** A call that returns Ok: during it each of the two certificates was fresh, or the call
      renewed it. */
  lemma OkMeansSettled(b: seq<State>, i: nat, j: nat, c: CallId)
    requires IsRun(b) && i <= j < |b| && c in b[i].calls && b[i].calls[c] == CheckRoot
    requires c in b[j].calls && b[j].calls[c] == Done(true)
    ensures Settled(b, i, j, c, Root) && Settled(b, i, j, c, Wildcard)
  {
    CallProgress(b, i, j, c);
  }

  // ---------- one call by itself

  lemma Then(s: State, a: Action, acts: seq<Action>)
    requires CanDo(s, a) && Legal(Do(s, a), acts)
    ensures Legal(s, [a] + acts) && After(s, [a] + acts) == After(Do(s, a), acts)
  {
    assert ([a] + acts)[1..] == acts;
  }

  /** The certificate that the generator gives for `d`, if it gives one. */
  function Got(issued: map<Domain, Cached>, d: Domain): Option<Cached> {
    if d in issued then Some(issued[d]) else None
  }

  /** The loop's turn for `d`: a fresh certificate stays, a stale one is asked for. */
  lemma TurnAlone(s: State, c: CallId, d: Domain, issued: map<Domain, Cached>) returns (acts: seq<Action>)
    requires c in s.calls && s.calls[c] == Locked(d)
    ensures Legal(s, acts) && var s' := After(s, acts);
            && s'.certs == (if !Fresh(s, d) && d in issued then s.certs[d := issued[d]] else s.certs) && s'.now == s.now
            && (if Fresh(s, d) || d in issued
                then s' == NextDomain(s.(certs := s'.certs), c, d)
                else c in s'.calls && s'.calls[c] == Done(false) && s'.lock == None)
  {
    if Fresh(s, d) {
      Then(s, Checks(c), []);
      acts := [Checks(c)] + [];
    } else {
      var s1 := Do(s, Checks(c));
      Then(s1, Issued(c, Got(issued, d)), []);
      Then(s, Checks(c), [Issued(c, Got(issued, d))] + []);
      acts := [Checks(c)] + ([Issued(c, Got(issued, d))] + []);
      assert s1.calls[c := Locked(d)] == s.calls;
    }
  }

  lemma {:induction false} Joined(s: State, a: seq<Action>, b: seq<Action>)
    requires Legal(s, a) && Legal(After(s, a), b)
    ensures Legal(s, a + b) && After(s, a + b) == After(After(s, a), b)
    decreases |a|
  {
    if a == [] {
      assert a + b == b;
    } else {
      assert (a + b)[0] == a[0] && (a + b)[1..] == a[1..] + b;
      Joined(Do(s, a[0]), a[1..], b);
    }
  }

  /** What is asked for of `d`, when its turn comes. */
  predicate Turns(s: State, d: Domain, issued: map<Domain, Cached>) {
    !Fresh(s, d) && (d.Wildcard? ==> Fresh(s, Root) || Root in issued)
  }

  function Stored(certs: map<Domain, Cached>, s: State, d: Domain, issued: map<Domain, Cached>): map<Domain, Cached> {
    if Turns(s, d, issued) && d in issued then certs[d := issued[d]] else certs
  }

  /** Unless both certificates are fresh, which ends the call, it comes to want the lock. */
  lemma FirstLook(s: State, c: CallId) returns (acts: seq<Action>)
    requires c !in s.calls
    ensures Legal(s, acts)
    ensures After(s, acts) == To(s, c, if Fresh(s, Root) && Fresh(s, Wildcard) then Done(true) else WantLock)
  {
    var s1 := Do(s, Calls(c));
    var s2 := Do(s1, Checks(c));
    if Fresh(s, Root) {
      Then(s2, Checks(c), []);
      Then(s1, Checks(c), [Checks(c)] + []);
      Then(s, Calls(c), [Checks(c)] + ([Checks(c)] + []));
      acts := [Calls(c)] + ([Checks(c)] + ([Checks(c)] + []));
      assert Do(s2, Checks(c)).calls == s.calls[c := if Fresh(s, Wildcard) then Done(true) else WantLock];
    } else {
      Then(s1, Checks(c), []);
      Then(s, Calls(c), [Checks(c)] + []);
      acts := [Calls(c)] + ([Checks(c)] + []);
      assert s2.calls == s.calls[c := WantLock];
    }
  }

  /** Both turns, under the lock. */
  lemma BothTurns(s: State, c: CallId, issued: map<Domain, Cached>) returns (acts: seq<Action>)
    requires c in s.calls && s.calls[c] == WantLock && s.lock == None
    ensures Legal(s, acts) && var s' := After(s, acts);
            && c in s'.calls && s'.lock == None && s'.now == s.now
            && s'.calls[c] == Done((Turns(s, Root, issued) ==> Root in issued) && (Turns(s, Wildcard, issued) ==> Wildcard in issued))
            && s'.certs == Stored(Stored(s.certs, s, Root, issued), s, Wildcard, issued)
  {
    var s1 := Do(s, Locks(c));
    var root := TurnAlone(s1, c, Root, issued);
    var s2 := After(s1, root);
    Then(s, Locks(c), root);
    acts := [Locks(c)] + root;
    if Fresh(s, Root) || Root in issued {
      var wildcard := TurnAlone(s2, c, Wildcard, issued);
      assert Fresh(s2, Wildcard) == Fresh(s, Wildcard);
      Joined(s, acts, wildcard);
      acts := acts + wildcard;
    }
  }

  /** A call with nobody else around goes through, gives the lock back, and has asked for each
      stale certificate in turn, the root first, until one was not issued. It succeeds exactly
      if all it asked for were issued; what was issued is stored and nothing else. */
  lemma RenewAlone(s: State, c: CallId, issued: map<Domain, Cached>) returns (acts: seq<Action>)
    requires c !in s.calls && s.lock == None
    ensures Legal(s, acts) && var s' := After(s, acts);
            && c in s'.calls && s'.lock == None && s'.now == s.now
            && s'.calls[c] == Done((Turns(s, Root, issued) ==> Root in issued) && (Turns(s, Wildcard, issued) ==> Wildcard in issued))
            && s'.certs == Stored(Stored(s.certs, s, Root, issued), s, Wildcard, issued)
  {
    acts := FirstLook(s, c);
    if !Fresh(s, Root) || !Fresh(s, Wildcard) {
      var turns := BothTurns(After(s, acts), c, issued);
      Joined(s, acts, turns);
      acts := acts + turns;
    }
  }
}
