/** When the retransmission timer protects the outstanding frame, and when not. */
module LinkTimer {
  import opened HdlcFrames
  import opened AliveStates
  import opened Links
  import opened LinkInvariants
  import opened LinkTheorems
  import opened LinkWakeups
  import opened LinkRuns

  /** An outstanding frame is watched by the timer, and nothing else is. */
  predicate Coupled(s: Link) {
    s.waitForAck <==> s.timer == Retransmit
  }

  /** The branch for a fresh RNR condition is about to be taken although the peer has
      restarted the flow and a frame is outstanding. */
  predicate Starves(p: Link) {
    && p.awaitsNextFrame && !p.sendProbe && p.alive.IsAlive() && p.srejs == []
    && p.waitForAck && p.peerStoppedFlowNew
  }

  lemma {:induction false} OpportunityCoupling(p: Link, script: seq<ClientAction>)
    requires Coupled(p) && Safe(p) && (p.peerStoppedFlow ==> !p.waitForAck)
    ensures Coupled(Opportunity(p, script).link) <==> !Starves(p)
    decreases |script|, 1
  {
    if p.awaitsNextFrame && !p.sendProbe && p.alive.IsAlive() && p.srejs == [] && !MaySendReliable(p)
       && (p.peerStoppedFlowNew || !p.peerRequiresAck) {
      var p' := if p.peerStoppedFlowNew then p.(peerStoppedFlowNew := false, timer := Poll) else p;
      if p'.unreliable == [] && (p'.reliable == [] || p'.peerStoppedFlow) {
        QueryCoupling(p', script);
      }
    }
  }

  /** An opportunity without a fresh RNR condition. */
  predicate Sheltered(p: Link) {
    Coupled(p) && Safe(p) && (p.peerStoppedFlow ==> !p.waitForAck) && !p.peerStoppedFlowNew
  }

  lemma EnqueuedSheltered(p: Link, payload: Payload, reliable: bool)
    requires Sheltered(p)
    ensures Sheltered(Enqueued(p, payload, reliable))
  {
  }

  lemma DisciplinedSheltered(p: Link, t: Link)
    requires Sheltered(p) && Disciplined(p, t) && Coupled(t)
    ensures Sheltered(t)
  {
  }

  lemma {:induction false} OfferCoupling(p: Link, payload: Payload, reliable: bool, script: seq<ClientAction>)
    requires Sheltered(p)
    ensures Sheltered(Send(p, payload, reliable, script).link)
    decreases |script|, 2
  {
    var p' := Enqueued(p, payload, reliable);
    EnqueuedSheltered(p, payload, reliable);
    OpportunityCoupling(p', script);
    OpportunityDisciplined(p', script);
    DisciplinedSheltered(p', Opportunity(p', script).link);
  }

  lemma {:induction false} QueryCoupling(p: Link, script: seq<ClientAction>)
    requires Sheltered(p)
    ensures Coupled(Query(p, script).link)
    decreases |script|, 0
  {
    if script != [] && script[0].Offer? {
      var r := Send(p, script[0].payload, script[0].reliable, script[1..]);
      OfferCoupling(p, script[0].payload, script[0].reliable, script[1..]);
      QueryCoupling(r.link, r.script);
    }
  }

  lemma AckedCoupled(s: Link, r: uint8)
    requires Inv(s) && Coupled(s)
    ensures Coupled(AckedUpTo(s, r))
  {
  }

  lemma RnrCoupled(s: Link, r: uint8)
    requires Inv(s) && Coupled(s)
    ensures Coupled(AckedByRNR(s, r))
  {
  }

  lemma RejectedCoupled(s: Link, r: uint8)
    requires Inv(s) && Coupled(s)
    ensures Coupled(RejectedFrom(s, r)) && Coupled(RequestedAgain(s, r))
  {
  }

  lemma RestartedCoupled(s: Link)
    requires Inv(s) && s.started && Coupled(s)
    ensures Inv(Restarted(s)) && Coupled(Restarted(s))
  {
    UnawaitedKeeps(s);
  }

  lemma InterpretedCoupled(s: Link, f: HdlcFrame)
    requires Inv(s) && s.started && Coupled(s) && f.sseq < 8 && f.rseq < 8
    ensures Inv(Interpreted(s, f)) && Coupled(Interpreted(s, f))
  {
    var heard := s.(alive := Heard(s.alive));
    NotedKeeps(heard, f);
    var t := Noted(heard, f);
    assert Coupled(t);
    AcknowledgedKeeps(t, f);
    RestartedCoupled(t);
    match f.frameType {
      case I => AckedCoupled(t, f.rseq);
      case RR => AckedCoupled(Restarted(t), f.rseq);
      case RNR => RnrCoupled(t, f.rseq);
      case REJ => RejectedCoupled(t, f.rseq);
      case SREJ => RejectedCoupled(t, f.rseq);
      case _ =>
    }
  }

  lemma PreparedCoupled(s: Link, e: LinkEvent)
    requires Inv(s) && Coupled(s) && Enabled(s, e)
    ensures var p := Prepared(s, e); Coupled(p) && Safe(p) && (p.peerStoppedFlow ==> !p.waitForAck)
  {
    match e
    case Deliver(f, invalid) =>
      if s.started && !invalid {
        InterpretedCoupled(s, f);
      }
    case _ =>
  }

  /** The exact condition: an event leaves the outstanding frame unwatched if and only
      if it leads into the branch for a fresh RNR condition while a frame is outstanding. */
  lemma StepCoupling(s: Link, e: LinkEvent, script: seq<ClientAction>)
    requires Inv(s) && Quiescent(s) && Coupled(s) && Enabled(s, e)
    ensures Coupled(Step(s, e, script).link) <==> !Starves(Prepared(s, e))
  {
    var p := Prepared(s, e);
    PreparedCoupled(s, e);
    OpportunityCoupling(p, script);
    match e
    case StartLink => StartCoupled(s, script);
    case _ =>
  }

  lemma StartCoupled(s: Link, script: seq<ClientAction>)
    requires Inv(s)
    ensures Coupled(Start(s, script).link)
  {
    var p := Reset(s).(started := true, sendProbe := true);
    OpportunityCoupling(p, script);
    OpportunityDisciplined(p, script);
    var r := Opportunity(p, script);
    assert !r.link.awaitsNextFrame;
  }

  // ---------- Runs without RNR ----------

  predicate IsRnr(e: LinkEvent) {
    e.Deliver? && !e.invalid && e.frame.frameType == RNR
  }

  predicate FlowFree(s: Link) {
    !s.peerStoppedFlow && !s.peerStoppedFlowNew
  }

  lemma AckedFlowFree(s: Link, r: uint8)
    requires Safe(s) && FlowFree(s)
    ensures FlowFree(AckedUpTo(s, r)) && FlowFree(RejectedFrom(s, r)) && FlowFree(RequestedAgain(s, r))
  {
  }

  lemma InterpretedFlowFree(s: Link, f: HdlcFrame)
    requires Inv(s) && f.sseq < 8 && FlowFree(s) && f.frameType != RNR
    ensures FlowFree(Interpreted(s, f))
  {
    var t := Noted(s.(alive := Heard(s.alive)), f);
    assert FlowFree(t) && Restarted(t) == t;
    AckedFlowFree(t, f.rseq);
  }

  lemma StepFlowFree(s: Link, e: LinkEvent, script: seq<ClientAction>)
    requires Inv(s) && Enabled(s, e) && FlowFree(s) && !IsRnr(e)
    ensures FlowFree(Prepared(s, e)) && FlowFree(Step(s, e, script).link)
  {
    match e {
      case Deliver(f, invalid) =>
        if s.started && !invalid {
          InterpretedFlowFree(s, f);
        }
      case _ =>
    }
    StepDisciplined(s, e, script);
  }

  /** Without RNR the retransmission timer runs exactly while a frame is outstanding. */
  lemma {:induction false} TimerWatchesFrame(s: Link, moves: seq<Move>)
    requires Inv(s) && Quiescent(s) && FlowFree(s) && Coupled(s)
    requires forall m :: m in moves ==> !IsRnr(m.event)
    ensures Coupled(Exec(s, moves)) && FlowFree(Exec(s, moves))
    decreases |moves|
  {
    if moves != [] {
      var m := moves[0];
      if Enabled(s, m.event) {
        StepKeeps(s, m.event, m.script);
        StepQuiesces(s, m.event, m.script);
        StepFlowFree(s, m.event, m.script);
        StepCoupling(s, m.event, m.script);
        TimerWatchesFrame(Step(s, m.event, m.script).link, moves[1..]);
      } else {
        TimerWatchesFrame(s, moves[1..]);
      }
    }
  }

  // ---------- An outstanding frame that nobody watches ----------

  predicate Stalled(s: Link) {
    s.started && s.waitForAck && s.timer != Retransmit
  }

  /** Only these frames end the wait: RNR, the acknowledgement of the outstanding frame,
      and a request to send it again. */
  predicate EndsWait(s: Link, f: HdlcFrame) {
    || f.frameType == RNR
    || ((f.frameType == I || f.frameType == RR) && f.rseq == (s.sseq + 1) % 8)
    || ((f.frameType == REJ || f.frameType == SREJ) && f.rseq == s.sseq)
  }

  lemma NotedWaits(s: Link, f: HdlcFrame)
    requires s.rseq < 8 && f.sseq < 8
    ensures var t := Noted(s.(alive := Heard(s.alive)), f);
      t.started == s.started && t.waitForAck == s.waitForAck && t.timer == s.timer && t.sseq == s.sseq
      && t.peerStoppedFlow == s.peerStoppedFlow && t.peerStoppedFlowNew == s.peerStoppedFlowNew
  {
  }

  /** The frame is still outstanding, with the same timer and the same flow. */
  predicate WaitsOn(s: Link, t: Link) {
    && t.waitForAck && t.timer == s.timer
    && t.peerStoppedFlow == s.peerStoppedFlow && t.peerStoppedFlowNew == s.peerStoppedFlowNew
  }

  lemma AckedWaits(s: Link, r: uint8)
    requires Safe(s) && s.waitForAck && !s.peerStoppedFlow
    ensures Restarted(s) == s
    ensures var t := AckedUpTo(s, r); if r == (s.sseq + 1) % 8 then !t.waitForAck else WaitsOn(s, t)
  {
  }

  lemma RnrWaits(s: Link, r: uint8)
    requires Safe(s)
    ensures !AckedByRNR(s, r).waitForAck || s.peerStoppedFlow
  {
  }

  lemma RejectedWaits(s: Link, r: uint8)
    requires Safe(s) && s.waitForAck && !s.peerStoppedFlow
    ensures var t := RejectedFrom(s, r); if r == s.sseq then !t.waitForAck else WaitsOn(s, t)
    ensures var t := RequestedAgain(s, r); if r == s.sseq then !t.waitForAck else WaitsOn(s, t)
  {
  }

  /** Exactly such a frame ends the wait; any other one leaves the timer as well. */
  lemma FrameWaits(s: Link, f: HdlcFrame)
    requires Shape(s) && s.waitForAck && f.sseq < 8
    ensures var p := Interpreted(s, f);
      if EndsWait(s, f) then !p.waitForAck else WaitsOn(s, p)
  {
    var t := Noted(s.(alive := Heard(s.alive)), f);
    NotedWaits(s, f);
    match f.frameType {
      case I => AckedWaits(t, f.rseq);
      case RR => AckedWaits(t, f.rseq);
      case RNR => RnrWaits(t, f.rseq);
      case REJ => RejectedWaits(t, f.rseq);
      case SREJ => RejectedWaits(t, f.rseq);
      case _ =>
    }
  }

  lemma FrameStalled(s: Link, f: HdlcFrame)
    requires Inv(s) && Stalled(s) && f.sseq < 8 && f.rseq < 8
    ensures Stalled(Interpreted(s, f)) <==> !EndsWait(s, f)
    ensures EndsWait(s, f) ==> !Interpreted(s, f).waitForAck
  {
    FrameWaits(s, f);
  }

  /** Such a frame, or a restart. */
  predicate Helps(s: Link, e: LinkEvent) {
    (e.Deliver? && !e.invalid && EndsWait(s, e.frame)) || e.StartLink? || e.StopLink?
  }

  lemma OthersStalled(s: Link)
    requires Stalled(s)
    ensures Stalled(AfterTrigger(s)) && AfterTrigger(s).log.sent == s.log.sent
    ensures Stalled(AfterProbeTimeout(s)) && AfterProbeTimeout(s).log.sent == s.log.sent
  {
  }

  lemma ExpiryStalled(s: Link)
    requires Stalled(s)
    ensures Stalled(AfterExpiry(s)) && AfterExpiry(s).log.sent == s.log.sent
  {
  }

  lemma PreparedStalled(s: Link, e: LinkEvent)
    requires Inv(s) && Stalled(s) && Enabled(s, e)
    ensures var p := Prepared(s, e);
      && p.log.sent == s.log.sent
      && (if Helps(s, e) then !p.started || !p.waitForAck else Stalled(p))
  {
    match e
    case TimerExpired => ExpiryStalled(s);
    case Deliver(f, invalid) =>
      if !invalid {
        FrameStalled(s, f);
      }
    case SendPayload(_, _) =>
    case StateTimedOut =>
    case StartLink =>
    case StopLink =>
    case _ => OthersStalled(s);
  }

  /** The stall ends with exactly these events, and goes on without an information frame. */
  lemma StallStep(s: Link, e: LinkEvent, script: seq<ClientAction>)
    requires Inv(s) && Stalled(s) && Enabled(s, e)
    ensures var t := Step(s, e, script).link;
      && (Stalled(t) <==> !Helps(s, e))
      && (Stalled(t) ==> IPayloads(t.log.sent) == IPayloads(s.log.sent))
  {
    PreparedStalled(s, e);
    StepDisciplined(s, e, script);
    var t := Step(s, e, script).link;
    if Stalled(t) && t.log.sent != s.log.sent {
      SentOneMore(s.log.sent, t.log.sent[|s.log.sent|]);
    }
  }

  /** No event of the run helps in the state in which it happens. */
  predicate Unhelped(s: Link, moves: seq<Move>)
    requires Inv(s)
    decreases |moves|
  {
    if moves == [] then true
    else if Enabled(s, moves[0].event) then
      StepKeeps(s, moves[0].event, moves[0].script);
      !Helps(s, moves[0].event) && Unhelped(Step(s, moves[0].event, moves[0].script).link, moves[1..])
    else Unhelped(s, moves[1..])
  }

  /** Once stalled, the link never sends the outstanding frame again, nor any other
      information frame, whatever its clients, its timers and its driver do, and
      whatever else the peer sends. */
  lemma {:induction false} StallPersists(s: Link, moves: seq<Move>)
    requires Inv(s) && Stalled(s) && Unhelped(s, moves)
    ensures var t := Exec(s, moves); Stalled(t) && IPayloads(t.log.sent) == IPayloads(s.log.sent)
    decreases |moves|
  {
    if moves != [] {
      var m := moves[0];
      if Enabled(s, m.event) {
        StepKeeps(s, m.event, m.script);
        StallStep(s, m.event, m.script);
        StallPersists(Step(s, m.event, m.script).link, moves[1..]);
      } else {
        StallPersists(s, moves[1..]);
      }
    }
  }

  const RR_FRAME := HdlcFrame(LINK_ADDRESS, RR, false, 0, 0, [])

  // A run that stalls: the device stops and restarts the flow while the slot is
  // taken, so that the fresh RNR condition is noticed only after the next frame.
  const STALLING_MOVES: seq<Move> := WAKING_MOVES + [
    Move(SendPayload(PAYLOAD, false), []),
    Move(Deliver(RNR_FRAME, false), []),
    Move(Deliver(RR_FRAME, false), []),
    Move(SendPayload(PAYLOAD, true), []),
    Move(TriggerNextFrame, []),
    Move(TriggerNextFrame, [])]

  /** The RR that revokes a fresh RNR condition while the slot is taken. */
  lemma FlowRestarts(s: Link)
    requires Inv(s) && s.started && !s.awaitsNextFrame && s.alive == Heard(s.alive)
    requires s.sseq == 0 && !s.waitForAck && s.timer == Off && s.peerStoppedFlow
    ensures Receive(s, RR_FRAME, false, []).link == s.(peerStoppedFlow := false)
  {
  }

  lemma OldStopNoticed(s: Link)
    requires Starves(s.(awaitsNextFrame := true)) && s.started && s.unreliable == [] && s.reliable != [] && !s.peerStoppedFlow
    ensures Trigger(s, []).link == s.(awaitsNextFrame := true, peerStoppedFlowNew := false, timer := Poll)
  {
  }

  lemma StopAndRestart(ms: seq<Move>, s4: Link, s6: Link)
    requires |ms| == 9 && ms[4] == Move(Deliver(RNR_FRAME, false), []) && ms[5] == Move(Deliver(RR_FRAME, false), [])
    requires Inv(s4) && HoldsSlot(s4) && s6 == s4.(peerStoppedFlowNew := true)
    ensures Inv(s6) && Exec(s4, ms[4..]) == Exec(s6, ms[6..])
  {
    var s5 := s4.(peerStoppedFlow := true, peerStoppedFlowNew := true);
    FlowStops(s4);
    ExecAt(s4, ms, 4, s5);
    FlowRestarts(s5);
    ExecAt(s5, ms, 5, s6);
  }

  lemma SendAndStall(ms: seq<Move>, s6: Link)
    requires |ms| == 9 && ms[6] == Move(SendPayload(PAYLOAD, true), [])
    requires ms[7] == Move(TriggerNextFrame, []) && ms[8] == Move(TriggerNextFrame, [])
    requires Inv(s6) && s6.started && !s6.awaitsNextFrame && s6.alive.IsAlive() && !s6.sendProbe && s6.srejs == []
    requires s6.reliable == [] && s6.unreliable == [] && !s6.peerStoppedFlow && s6.peerStoppedFlowNew && !s6.waitForAck
    ensures Stalled(Exec(s6, ms[6..]))
  {
    var s7 := Enqueued(s6, PAYLOAD, true);
    var s8 := SentReliable(s7.(awaitsNextFrame := true));
    ExecAt(s6, ms, 6, s7);
    ExecAt(s7, ms, 7, s8);
    OldStopNoticed(s8);
    ExecAt(s8, ms, 8, s8.(awaitsNextFrame := true, peerStoppedFlowNew := false, timer := Poll));
    assert ms[9..] == [];
  }

  lemma StallsFrom(ms: seq<Move>, s4: Link)
    requires |ms| == 9 && ms[4..] == STALLING_MOVES[4..] && Inv(s4) && HoldsSlot(s4)
    ensures Stalled(Exec(s4, ms[4..]))
  {
    assert forall i :: 4 <= i < 9 ==> ms[i] == ms[4..][i - 4];
    var s6 := s4.(peerStoppedFlowNew := true);
    StopAndRestart(ms, s4, s6);
    SendAndStall(ms, s6);
  }

  /** The stall is reachable. */
  lemma StallReachable()
    ensures Stalled(Exec(NEW_LINK, STALLING_MOVES))
  {
    Greets(STALLING_MOVES);
    StallsFrom(STALLING_MOVES, GREETED);
  }
}
