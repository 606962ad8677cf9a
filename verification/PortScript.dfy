/** A forwarding loop told from outside: what it has sent and written, why and when it ends,
    and what can happen next, read off the script of events alone. Nothing here mentions a
    step of the task until the laws at the end, which say that the task of module PortTask
    does exactly this. */
module PortScript {
  import opened PortTask

  // ---------- what the script hands to the loop

  /** The bytes that come from the socket. */
  function ReadIn(script: seq<Event>): seq<Byte> {
    if script == [] then []
    else ReadIn(script[..|script| - 1]) + if script[|script| - 1].Read? then script[|script| - 1].data else []
  }

  /** The messages that come from the channel. */
  function TakenIn(script: seq<Event>): seq<PortMessage> {
    if script == [] then []
    else TakenIn(script[..|script| - 1]) + if script[|script| - 1].Dequeue? then [script[|script| - 1].msg] else []
  }

  // ---------- what the loop makes of it

  /** Bytes read become a data message, end of file a close. */
  function Told(data: seq<Byte>): PortMessage {
    if |data| == 0 then Close else Data(data)
  }

  /** The last event is a read while the client was there: a message is about to be sent. */
  predicate HasRead(script: seq<Event>) {
    script != [] && script[|script| - 1].Read? && script[|script| - 1].alive
  }

  /** Event `i` puts the message of the read before it on the websocket. */
  predicate Reaches(script: seq<Event>, i: nat)
    requires i < |script|
  {
    HasRead(script[..i]) && (script[i].SendOk? || (script[i].SendError? && script[i].reached))
  }

  /** The messages on the websocket. */
  function SentIn(script: seq<Event>): seq<PortMessage> {
    if script == [] then []
    else
      var i := |script| - 1;
      SentIn(script[..i]) + if Reaches(script, i) then [Told(script[i - 1].data)] else []
  }

  /** How many bytes have been written to the socket. */
  function WroteIn(script: seq<Event>): nat {
    if script == [] then 0
    else WroteIn(script[..|script| - 1]) + if script[|script| - 1].Write? then script[|script| - 1].n else 0
  }

  predicate SendHasFailed(script: seq<Event>) {
    exists i :: 0 <= i < |script| && script[i].SendError?
  }

  // ---------- why the loop ends

  /** Event `i` ends the loop, for this reason. The server does not mind a failed send of
      data; np does not mind a failed read. */
  predicate Ends(side: Side, script: seq<Event>, i: nat, cause: Cause)
    requires i < |script|
  {
    match cause
    case GotClose => script[i] == Dequeue(Close)
    case WriteFailed => script[i].WriteError?
    case Released => (script[i].Read? || script[i].Elapsed?) && !script[i].alive
    case ReadFailed => script[i].ReadError? && side == Server
    case SendFailed => script[i].SendError? && side == Np
    case HitEof =>
      && HasRead(script[..i]) && |script[i - 1].data| == 0
      && (script[i].SendOk? || (script[i].SendError? && side == Server))
  }

  ghost predicate HasEnded(side: Side, script: seq<Event>, cause: Cause) {
    exists i :: 0 <= i < |script| && Ends(side, script, i, cause)
  }

  ghost predicate StillOn(side: Side, script: seq<Event>) {
    forall cause :: !HasEnded(side, script, cause)
  }

  // ---------- where that leaves the loop

  /** The phase a loop is in. */
  ghost predicate Stands(side: Side, script: seq<Event>, phase: Phase) {
    match phase
    case Selecting => StillOn(side, script) && !HasRead(script) && WroteIn(script) == |Bytes(TakenIn(script))|
    case Writing(rest) =>
      && StillOn(side, script) && !HasRead(script) && rest != []
      && WroteIn(script) + |rest| == |Bytes(TakenIn(script))| && rest == Bytes(TakenIn(script))[WroteIn(script)..]
    case Sending(m) =>
      && StillOn(side, script) && HasRead(script) && m == Told(script[|script| - 1].data)
      && WroteIn(script) == |Bytes(TakenIn(script))|
    case Leaving(cause) => HasEnded(side, script, cause) && Unregister !in script
    case Ended(cause) => HasEnded(side, script, cause) && Unregister in script
  }

  /** All that can be seen of a loop after a script. Told to close, it has written everything;
      having sent a close, it has sent everything. */
  ghost predicate Faithful(side: Side, script: seq<Event>, phase: Phase, sent: seq<PortMessage>, written: seq<Byte>) {
    && sent == SentIn(script)
    && WroteIn(script) <= |Bytes(TakenIn(script))| && written == Bytes(TakenIn(script))[..WroteIn(script)]
    && Stands(side, script, phase)
    && Bytes(sent) <= ReadIn(script)
    && ((phase.Leaving? || phase.Ended?) && phase.cause == GotClose ==> written == Bytes(TakenIn(script)))
    && (EndsWithClose(sent) ==> Bytes(sent) == ReadIn(script))
    && (phase.Selecting? && !SendHasFailed(script) ==> Bytes(sent) == ReadIn(script))
  }

  // ---------- what can happen next

  ghost predicate CanCome(side: Side, script: seq<Event>, e: Event) {
    match e
    case Unregister => !StillOn(side, script) && Unregister !in script
    case SendOk => StillOn(side, script) && HasRead(script) && !SendHasFailed(script)
    case SendError(reached) => StillOn(side, script) && HasRead(script) && (reached ==> !SendHasFailed(script))
    case Write(n) => StillOn(side, script) && 0 < n && WroteIn(script) + n <= |Bytes(TakenIn(script))|
    case WriteError => StillOn(side, script) && WroteIn(script) < |Bytes(TakenIn(script))|
    case _ =>
      && StillOn(side, script) && !HasRead(script) && WroteIn(script) == |Bytes(TakenIn(script))|
      && (e.Read? ==> |e.data| <= 512)
  }

  // ---------- the task does exactly this

  lemma {:induction false} RunSnoc(side: Side, t: Task, es: seq<Event>, e: Event)
    ensures Feasible(side, t, es + [e]) <==> Feasible(side, t, es) && Enabled(Run(side, t, es), e)
    ensures Feasible(side, t, es + [e]) ==> Run(side, t, es + [e]) == Step(side, Run(side, t, es), e)
    decreases |es|
  {
    if es == [] {
      assert es + [e] == [e] && [e][1..] == [];
    } else {
      assert (es + [e])[0] == es[0] && (es + [e])[1..] == es[1..] + [e];
      if Enabled(t, es[0]) {
        RunSnoc(side, Step(side, t, es[0]), es[1..], e);
      }
    }
  }

  lemma EndsSnoc(side: Side, script: seq<Event>, e: Event, cause: Cause)
    ensures HasEnded(side, script + [e], cause) <==> HasEnded(side, script, cause) || Ends(side, script + [e], |script|, cause)
  {
    var longer := script + [e];
    forall i: nat | i < |script| ensures Ends(side, longer, i, cause) == Ends(side, script, i, cause) {
      assert longer[..i] == script[..i] && longer[i] == script[i];
    }
    if Ends(side, longer, |script|, cause) {
      assert HasEnded(side, longer, cause);
    }
    if HasEnded(side, script, cause) {
      var i :| 0 <= i < |script| && Ends(side, script, i, cause);
      assert Ends(side, longer, i, cause);
    }
  }

  /** What a step adds to the sums over the script. */
  lemma SumsSnoc(side: Side, script: seq<Event>, e: Event)
    ensures var longer := script + [e];
            && longer[..|script|] == script
            && ReadIn(longer) == ReadIn(script) + (if e.Read? then e.data else [])
            && TakenIn(longer) == TakenIn(script) + (if e.Dequeue? then [e.msg] else [])
            && WroteIn(longer) == WroteIn(script) + (if e.Write? then e.n else 0)
            && (SendHasFailed(longer) <==> SendHasFailed(script) || e.SendError?)
            && SentIn(longer) == SentIn(script) +
                 (if HasRead(script) && (e.SendOk? || (e.SendError? && e.reached)) then [Told(script[|script| - 1].data)] else [])
            && (Unregister in longer <==> Unregister in script || e == Unregister)
  {
    var longer := script + [e];
    assert longer[..|script|] == script && longer[|script|] == e;
    assert SendHasFailed(script) ==> SendHasFailed(longer) by {
      if SendHasFailed(script) {
        var i :| 0 <= i < |script| && script[i].SendError?;
        assert longer[i].SendError?;
      }
    }
    assert e.SendError? ==> longer[|script|].SendError?;
  }

  /** What a running task's phase says about the last event; it awaits no empty write. */
  predicate ReadLast(script: seq<Event>, phase: Phase) {
    && (phase.Sending? <==> HasRead(script))
    && (phase.Sending? ==> phase.msg == Told(script[|script| - 1].data))
    && (phase.Writing? ==> phase.rest != [])
  }

  /** A running task leaves its loop on exactly the events that end it, for that reason. */
  lemma LeavesOn(side: Side, script: seq<Event>, t: Task, e: Event, cause: Cause)
    requires Enabled(t, e) && Running(t) && ReadLast(script, t.phase)
    ensures var t' := Step(side, t, e);
            Ends(side, script + [e], |script|, cause) <==> !Running(t') && t'.phase.cause == cause
  {
    assert (script + [e])[..|script|] == script && (script + [e])[|script|] == e;
  }

  lemma ReadsOn(side: Side, script: seq<Event>, t: Task, e: Event)
    requires Enabled(t, e) && Running(t)
    ensures var t' := Step(side, t, e); Running(t') ==> ReadLast(script + [e], t'.phase)
  {
  }

  /** `Stands` without the counts, which follow from what every task keeps. */
  ghost predicate Placed(side: Side, script: seq<Event>, phase: Phase) {
    match phase
    case Leaving(cause) => HasEnded(side, script, cause) && Unregister !in script
    case Ended(cause) => HasEnded(side, script, cause) && Unregister in script
    case _ => StillOn(side, script) && ReadLast(script, phase) && Unregister !in script
  }

  lemma PlacedOn(side: Side, script: seq<Event>, t: Task, e: Event)
    requires Placed(side, script, t.phase) && Enabled(t, e)
    ensures Placed(side, script + [e], Step(side, t, e).phase)
  {
    if Running(t) {
      RunningOn(side, script, t, e);
    } else {
      GoneOn(side, script, t, e);
    }
  }

  lemma RunningOn(side: Side, script: seq<Event>, t: Task, e: Event)
    requires Running(t) && Placed(side, script, t.phase) && Enabled(t, e)
    ensures Placed(side, script + [e], Step(side, t, e).phase)
  {
    var t', longer := Step(side, t, e), script + [e];
    ReadsOn(side, script, t, e);
    EndedNow(side, script, t, e);
    assert Unregister in longer <==> Unregister in script || e == Unregister;
    if Running(t') {
      assert StillOn(side, longer);
    }
  }

  /** After a running task's step the script has ended exactly if the task is out. */
  lemma EndedNow(side: Side, script: seq<Event>, t: Task, e: Event)
    requires Enabled(t, e) && Running(t) && ReadLast(script, t.phase) && StillOn(side, script)
    ensures var t' := Step(side, t, e);
            forall cause :: HasEnded(side, script + [e], cause) <==> !Running(t') && t'.phase.cause == cause
  {
    forall cause ensures HasEnded(side, script + [e], cause) <==> Ends(side, script + [e], |script|, cause) {
      EndsSnoc(side, script, e, cause);
    }
    forall cause ensures Ends(side, script + [e], |script|, cause) <==>
                         !Running(Step(side, t, e)) && Step(side, t, e).phase.cause == cause {
      LeavesOn(side, script, t, e, cause);
    }
  }

  lemma GoneOn(side: Side, script: seq<Event>, t: Task, e: Event)
    requires !Running(t) && Placed(side, script, t.phase) && Enabled(t, e)
    ensures Placed(side, script + [e], Step(side, t, e).phase)
  {
    EndsSnoc(side, script, e, t.phase.cause);
    assert (script + [e])[|script|] == e;
  }

  /** The task after a script, told by the script. */
  ghost predicate Law(side: Side, script: seq<Event>, t: Task) {
    && Good(t) && Placed(side, script, t.phase)
    && t.read == ReadIn(script) && t.got == TakenIn(script) && t.sent == SentIn(script)
    && |t.written| == WroteIn(script) && (t.cutOff <==> SendHasFailed(script))
  }

  lemma SumsOn(side: Side, script: seq<Event>, t: Task, e: Event)
    requires Law(side, script, t) && Enabled(t, e)
    ensures var t', longer := Step(side, t, e), script + [e];
            && t'.read == ReadIn(longer) && t'.got == TakenIn(longer) && t'.sent == SentIn(longer)
            && |t'.written| == WroteIn(longer) && (t'.cutOff <==> SendHasFailed(longer))
  {
    SumsSnoc(side, script, e);
    StepSums(side, t, e);
    assert t.phase.Sending? ==> ReadLast(script, t.phase);
  }

  /** What a step adds to what the task has read, taken, sent and written. */
  lemma StepSums(side: Side, t: Task, e: Event)
    requires Enabled(t, e)
    ensures var t' := Step(side, t, e);
            && t'.read == t.read + (if e.Read? then e.data else [])
            && t'.got == t.got + (if e.Dequeue? then [e.msg] else [])
            && t'.sent == t.sent + (if e.SendOk? || (e.SendError? && e.reached) then [t.phase.msg] else [])
            && |t'.written| == |t.written| + (if e.Write? then e.n else 0)
            && (t'.cutOff <==> t.cutOff || e.SendError?)
  {
  }

  lemma {:induction false} RunLaw(side: Side, script: seq<Event>)
    requires Feasible(side, NewTask, script)
    ensures Law(side, script, Run(side, NewTask, script))
    decreases |script|
  {
    if script != [] {
      var init, e := script[..|script| - 1], script[|script| - 1];
      assert script == init + [e];
      RunSnoc(side, NewTask, init, e);
      RunLaw(side, init);
      var t := Run(side, NewTask, init);
      StepSends(side, t, e);
      StepWrites(side, t, e);
      PlacedOn(side, init, t, e);
      SumsOn(side, init, t, e);
    }
  }

  /** The law comes to what can be seen. */
  lemma LawIsFaithful(side: Side, script: seq<Event>, t: Task)
    requires Law(side, script, t)
    ensures Faithful(side, script, t.phase, t.sent, t.written)
  {
    if Running(t) {
      assert t.written + Unwritten(t) == Bytes(t.got);
      assert Bytes(t.got)[|t.written|..] == Unwritten(t);
    }
  }

  /** After any script the task of either side is where the script says, has sent what it
      says and has written what it says. */
  lemma RunFaithful(side: Side, script: seq<Event>)
    requires Feasible(side, NewTask, script)
    ensures var t := Run(side, NewTask, script); Faithful(side, script, t.phase, t.sent, t.written)
  {
    RunLaw(side, script);
    LawIsFaithful(side, script, Run(side, NewTask, script));
  }

  /** Which scripts there are: after one, an event can come exactly if the script says so. */
  lemma NextEvents(side: Side, script: seq<Event>, e: Event)
    requires Feasible(side, NewTask, script)
    ensures Feasible(side, NewTask, script + [e]) <==> CanCome(side, script, e)
  {
    RunSnoc(side, NewTask, script, e);
    RunLaw(side, script);
    var t := Run(side, NewTask, script);
    LawIsFaithful(side, script, t);
    if !Running(t) {
      assert !StillOn(side, script);
    }
  }
}
