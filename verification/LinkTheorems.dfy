/** Theorems about every run of the link entity. */
module LinkTheorems {
  import opened HdlcFrames
  import opened AliveStates
  import opened Links
  import opened LinkInvariants

  // ---------- Runs ----------

  datatype Move = Move(event: LinkEvent, script: seq<ClientAction>)

  /** The link after any sequence of events; an event that cannot happen is skipped. */
  function Exec(s: Link, moves: seq<Move>): (t: Link)
    requires Inv(s)
    ensures Inv(t)
    decreases |moves|
  {
    if moves == [] then s
    else if Enabled(s, moves[0].event) then
      StepKeeps(s, moves[0].event, moves[0].script);
      Exec(Step(s, moves[0].event, moves[0].script).link, moves[1..])
    else Exec(s, moves[1..])
  }

  // ---------- Discipline of the transmit slot ----------

  /** What no transmit opportunity changes, and what it adds to. */
  predicate Kept(s: Link, t: Link) {
    && t.started == s.started && t.alive == s.alive
    && t.sseq == s.sseq && t.rseq == s.rseq
    && t.peerStoppedFlow == s.peerStoppedFlow
    && t.log.popped == s.log.popped
    && t.log.gap == s.log.gap && t.log.requestedBefore == s.log.requestedBefore
    && s.reliable <= t.reliable
    && (!s.peerStoppedFlowNew ==> !t.peerStoppedFlowNew)
    && (!s.sendProbe ==> !t.sendProbe)
  }

  predicate NoFrame(s: Link, t: Link) {
    && t.log.sent == s.log.sent
    && t.awaitsNextFrame == s.awaitsNextFrame && t.waitForAck == s.waitForAck
    && (t.timer == s.timer || (s.awaitsNextFrame && s.peerStoppedFlowNew && t.timer == Poll))
  }

  /** Into a free slot, which it occupies; only test frames while the link is not
      alive; an information frame repeats the head and arms the timer. */
  predicate OneFrame(s: Link, t: Link) {
    && s.awaitsNextFrame && !t.awaitsNextFrame
    && |t.log.sent| == |s.log.sent| + 1
    && var f := t.log.sent[|s.log.sent|];
       && t.log.sent == s.log.sent + [f]
       && (if f.frameType == TEST then s.sendProbe else t.alive.IsAlive())
       && (if f.IsIFrame() then
             && !s.waitForAck && !s.peerStoppedFlow && t.waitForAck && t.timer == Retransmit
             && t.reliable != [] && f == IFrame(s.sseq, s.rseq, t.reliable[0])
           else t.waitForAck == s.waitForAck && (t.timer == s.timer || t.timer == Poll))
  }

  predicate Disciplined(s: Link, t: Link) {
    Kept(s, t) && (NoFrame(s, t) || OneFrame(s, t))
  }

  lemma DisciplinedTransitive(s: Link, t: Link, u: Link)
    requires Disciplined(s, t) && Disciplined(t, u)
    requires !s.peerStoppedFlowNew
    ensures Disciplined(s, u)
  {
  }

  lemma RequestDisciplined(s: Link)
    requires s.awaitsNextFrame && s.alive.IsAlive() && s.srejs != []
    ensures Disciplined(s, Transmit(Requested(s), SFrame(SREJ, false, s.srejs[0])))
  {
  }

  lemma ReliableDisciplined(s: Link)
    requires s.awaitsNextFrame && s.alive.IsAlive() && MaySendReliable(s)
    ensures Disciplined(s, SentReliable(s))
  {
  }

  lemma RRDisciplined(s: Link)
    requires s.awaitsNextFrame && s.alive.IsAlive()
    ensures Disciplined(s, SentRR(s))
  {
  }

  lemma UnreliableDisciplined(s: Link)
    requires s.awaitsNextFrame && s.alive.IsAlive() && s.unreliable != []
    ensures Disciplined(s, SentUnreliable(s))
  {
  }

  lemma ProbeDisciplined(s: Link)
    requires s.awaitsNextFrame && s.sendProbe
    ensures Disciplined(s, Transmit(s.(sendProbe := false), TEST_FRAME))
  {
  }

  lemma EnqueuedDisciplined(s: Link, payload: Payload, reliable: bool)
    ensures Disciplined(s, Enqueued(s, payload, reliable))
  {
  }

  lemma {:induction false} OpportunityDisciplined(s: Link, script: seq<ClientAction>)
    ensures Disciplined(s, Opportunity(s, script).link)
    decreases |script|, 1
  {
    if !s.awaitsNextFrame || (!s.sendProbe && !s.alive.IsAlive()) {
    } else if s.sendProbe {
      ProbeDisciplined(s);
    } else if s.srejs != [] {
      RequestDisciplined(s);
    } else if MaySendReliable(s) {
      ReliableDisciplined(s);
    } else if !s.peerStoppedFlowNew && s.peerRequiresAck {
      RRDisciplined(s);
    } else {
      var s' := if s.peerStoppedFlowNew then s.(peerStoppedFlowNew := false, timer := Poll) else s;
      if s'.unreliable != [] {
        UnreliableDisciplined(s');
      } else if s'.reliable == [] || s'.peerStoppedFlow {
        QueryDisciplined(s', script);
      }
      PolledDisciplined(s, s', Opportunity(s, script).link);
    }
  }

  lemma PolledDisciplined(s: Link, s': Link, t: Link)
    requires s.awaitsNextFrame
    requires s' == if s.peerStoppedFlowNew then s.(peerStoppedFlowNew := false, timer := Poll) else s
    requires Disciplined(s', t)
    ensures Disciplined(s, t)
  {
  }

  lemma {:induction false} SendDisciplined(s: Link, payload: Payload, reliable: bool, script: seq<ClientAction>)
    requires !s.peerStoppedFlowNew
    ensures Disciplined(s, Send(s, payload, reliable, script).link)
    decreases |script|, 2
  {
    var s' := Enqueued(s, payload, reliable);
    EnqueuedDisciplined(s, payload, reliable);
    OpportunityDisciplined(s', script);
    DisciplinedTransitive(s, s', Opportunity(s', script).link);
  }

  lemma {:induction false} QueryDisciplined(s: Link, script: seq<ClientAction>)
    requires !s.peerStoppedFlowNew
    ensures Disciplined(s, Query(s, script).link)
    decreases |script|, 0
  {
    if script != [] && script[0].Offer? {
      SendDisciplined(s, script[0].payload, script[0].reliable, script[1..]);
      var r := Send(s, script[0].payload, script[0].reliable, script[1..]);
      QueryDisciplined(r.link, r.script);
      DisciplinedTransitive(s, r.link, Query(r.link, r.script).link);
    }
  }

  function AfterFrame(s: Link, f: HdlcFrame, invalid: bool): Link
    requires Safe(s) && s.rseq < 8 && f.sseq < 8
  {
    if s.started && !invalid then Interpreted(s, f) else s
  }

  function AfterExpiry(s: Link): Link {
    if s.timer == Retransmit then Unawaited(s)
    else if s.peerStoppedFlow then s.(timer := Off, peerRequiresAck := true, peerStoppedFlowQueried := false)
    else s.(timer := Off)
  }

  function AfterProbeTimeout(s: Link): Link {
    s.(alive := Probed(s.alive), sendProbe := s.sendProbe || SendsProbe(s.alive))
  }

  function AfterTrigger(s: Link): Link {
    if s.started then s.(awaitsNextFrame := true) else s
  }

  /** The state in which an event leaves the link before its transmit opportunity. */
  function Prepared(s: Link, e: LinkEvent): Link
    requires Safe(s) && s.rseq < 8 && Enabled(s, e)
  {
    match e
    case SendPayload(payload, reliable) => Enqueued(s, payload, reliable)
    case TriggerNextFrame => AfterTrigger(s)
    case Deliver(f, invalid) => AfterFrame(s, f, invalid)
    case TimerExpired => AfterExpiry(s)
    case StateTimedOut => s.(alive := Doubted(s.alive))
    case ProbeTimedOut => AfterProbeTimeout(s)
    case StartLink => Reset(s).(started := true, sendProbe := true)
    case StopLink => Stop(s)
  }

  /** Nothing is sent yet, and a link that is not running has nothing to send. */
  predicate Lead(s: Link, p: Link) {
    p.log.sent == s.log.sent && (!p.started ==> !p.alive.IsAlive() && !p.sendProbe)
  }

  lemma FrameDisciplined(s: Link, f: HdlcFrame, invalid: bool, script: seq<ClientAction>)
    requires Inv(s) && f.sseq < 8 && f.rseq < 8
    ensures var p := AfterFrame(s, f, invalid);
      Lead(s, p) && p.awaitsNextFrame == s.awaitsNextFrame && Disciplined(p, Receive(s, f, invalid, script).link)
  {
    OpportunityDisciplined(AfterFrame(s, f, invalid), script);
  }

  lemma ExpiryDisciplined(s: Link, script: seq<ClientAction>)
    requires Inv(s) && s.timer != Off
    ensures var p := AfterExpiry(s);
      Lead(s, p) && p.awaitsNextFrame == s.awaitsNextFrame && Disciplined(p, Expire(s, script).link)
  {
    OpportunityDisciplined(AfterExpiry(s), script);
  }

  lemma StartDisciplined(s: Link, script: seq<ClientAction>)
    ensures var p := Reset(s).(started := true, sendProbe := true);
      Lead(s, p) && Disciplined(p, Start(s, script).link)
  {
    var p := Reset(s).(started := true, sendProbe := true);
    OpportunityDisciplined(p, script);
    assert !Opportunity(p, script).link.awaitsNextFrame;
  }

  lemma ProbeTimeoutDisciplined(s: Link, script: seq<ClientAction>)
    requires Inv(s) && s.started
    ensures var p := AfterProbeTimeout(s);
      Lead(s, p) && p.awaitsNextFrame == s.awaitsNextFrame && Disciplined(p, OnProbeTimeout(s, script).link)
  {
    OpportunityDisciplined(AfterProbeTimeout(s), script);
  }

  lemma TriggerDisciplined(s: Link, script: seq<ClientAction>)
    requires Inv(s)
    ensures Lead(s, AfterTrigger(s)) && Disciplined(AfterTrigger(s), Trigger(s, script).link)
  {
    OpportunityDisciplined(AfterTrigger(s), script);
  }

  lemma SendPayloadDisciplined(s: Link, payload: Payload, reliable: bool, script: seq<ClientAction>)
    requires Inv(s)
    ensures var p := Enqueued(s, payload, reliable);
      Lead(s, p) && p.awaitsNextFrame == s.awaitsNextFrame && Disciplined(p, Send(s, payload, reliable, script).link)
  {
    OpportunityDisciplined(Enqueued(s, payload, reliable), script);
  }

  lemma QuietDisciplined(s: Link, p: Link)
    requires Inv(s) && (p == s.(alive := Doubted(s.alive)) || p == Stop(s))
    ensures Lead(s, p) && Disciplined(p, p)
  {
  }

  /** Every event hands over at most one frame, and only into a free slot, which was
      free before or is freed by the event itself. */
  lemma StepDisciplined(s: Link, e: LinkEvent, script: seq<ClientAction>)
    requires Inv(s) && Enabled(s, e)
    ensures Lead(s, Prepared(s, e)) && Disciplined(Prepared(s, e), Step(s, e, script).link)
    ensures Prepared(s, e).awaitsNextFrame ==>
              s.awaitsNextFrame || e.TriggerNextFrame? || e.StartLink? || e.StopLink?
  {
    match e {
      case SendPayload(payload, reliable) => SendPayloadDisciplined(s, payload, reliable, script);
      case TriggerNextFrame => TriggerDisciplined(s, script);
      case Deliver(f, invalid) => FrameDisciplined(s, f, invalid, script);
      case TimerExpired => ExpiryDisciplined(s, script);
      case StateTimedOut => QuietDisciplined(s, s.(alive := Doubted(s.alive)));
      case ProbeTimedOut => ProbeTimeoutDisciplined(s, script);
      case StartLink => StartDisciplined(s, script);
      case StopLink => QuietDisciplined(s, Stop(s));
    }
  }

  /** A link that is not running afterwards has sent nothing. */
  lemma StoppedSendsNothing(s: Link, e: LinkEvent, script: seq<ClientAction>)
    requires Inv(s) && Enabled(s, e)
    requires !Step(s, e, script).link.started
    ensures Step(s, e, script).link.log.sent == s.log.sent
  {
    StepDisciplined(s, e, script);
  }
}
