/** No lost wakeup: what can still be waiting when the transmit slot is free. */
module LinkWakeups {
  import opened HdlcFrames
  import opened AliveStates
  import opened Links
  import opened LinkInvariants
  import opened LinkTheorems
  import opened LinkRuns

  /** With a free slot on a live link, no probe, request or payload that could be sent is
      left waiting. */
  predicate Quiescent(s: Link) {
    s.awaitsNextFrame ==>
      && !s.sendProbe
      && (s.alive.IsAlive() ==>
            && s.srejs == [] && s.unreliable == [] && !s.peerStoppedFlowNew
            && (s.reliable == [] || s.waitForAck || s.peerStoppedFlow))
  }

  lemma {:induction false} OpportunityQuiesces(s: Link, script: seq<ClientAction>)
    ensures Quiescent(Opportunity(s, script).link)
    decreases |script|, 1
  {
    if s.awaitsNextFrame && !s.sendProbe && s.alive.IsAlive() && s.srejs == [] && !MaySendReliable(s)
       && (s.peerStoppedFlowNew || !s.peerRequiresAck) {
      var s' := if s.peerStoppedFlowNew then s.(peerStoppedFlowNew := false, timer := Poll) else s;
      if s'.unreliable == [] && (s'.reliable == [] || s'.peerStoppedFlow) {
        QueryQuiesces(s', script);
      }
    }
  }

  lemma {:induction false} QueryQuiesces(s: Link, script: seq<ClientAction>)
    requires Quiescent(s)
    ensures Quiescent(Query(s, script).link)
    decreases |script|, 0
  {
    if script != [] && script[0].Offer? {
      var s' := Enqueued(s, script[0].payload, script[0].reliable);
      OpportunityQuiesces(s', script[1..]);
      var r := Opportunity(s', script[1..]);
      QueryQuiesces(r.link, r.script);
    }
  }

  lemma ExpireQuiesces(s: Link, script: seq<ClientAction>)
    requires Quiescent(s) && s.timer != Off
    ensures Quiescent(Expire(s, script).link)
  {
    OpportunityQuiesces(Unawaited(s), script);
    OpportunityQuiesces(s.(timer := Off, peerRequiresAck := true, peerStoppedFlowQueried := false), script);
  }

  lemma ProbeTimeoutQuiesces(s: Link, script: seq<ClientAction>)
    requires Quiescent(s)
    ensures Quiescent(OnProbeTimeout(s, script).link)
  {
    OpportunityQuiesces(s.(alive := Probed(s.alive), sendProbe := true), script);
  }

  lemma StartQuiesces(s: Link, script: seq<ClientAction>)
    ensures Quiescent(Start(s, script).link)
  {
    var r := Probe(Reset(s).(started := true), script);
    OpportunityQuiesces(r.link, r.script);
  }

  lemma StepQuiesces(s: Link, e: LinkEvent, script: seq<ClientAction>)
    requires Inv(s) && Enabled(s, e) && Quiescent(s)
    ensures Quiescent(Step(s, e, script).link)
  {
    match e
    case SendPayload(payload, reliable) => OpportunityQuiesces(Enqueued(s, payload, reliable), script);
    case TriggerNextFrame => OpportunityQuiesces(s.(awaitsNextFrame := true), script);
    case Deliver(f, invalid) =>
      if s.started && !invalid {
        OpportunityQuiesces(Interpreted(s, f), script);
      }
    case TimerExpired => ExpireQuiesces(s, script);
    case StateTimedOut =>
    case ProbeTimedOut => ProbeTimeoutQuiesces(s, script);
    case StartLink => StartQuiesces(s, script);
    case StopLink =>
  }

  // ---------- An RR that is due ----------

  /** With a free slot on a live link, an RR is due if and only if it was passed over. */
  predicate AckWaits(s: Link, passed: bool) {
    s.awaitsNextFrame && s.alive.IsAlive() ==> (s.peerRequiresAck <==> passed)
  }

  /** The opportunity that notices a fresh RNR condition passes a due RR over. */
  predicate PassesOver(p: Link) {
    p.peerRequiresAck && p.peerStoppedFlowNew
  }

  /** Otherwise a due RR, or something more urgent, takes the slot. */
  lemma DueTakesSlot(p: Link, script: seq<ClientAction>)
    requires p.alive.IsAlive() && p.peerRequiresAck && !p.peerStoppedFlowNew
    ensures !Opportunity(p, script).link.awaitsNextFrame
  {
  }

  lemma {:induction false} OpportunityAcks(p: Link, script: seq<ClientAction>)
    ensures AckWaits(Opportunity(p, script).link, PassesOver(p))
    decreases |script|, 1
  {
    if p.awaitsNextFrame && !p.sendProbe && p.alive.IsAlive() && p.srejs == [] && !MaySendReliable(p)
       && (p.peerStoppedFlowNew || !p.peerRequiresAck) {
      var p' := if p.peerStoppedFlowNew then p.(peerStoppedFlowNew := false, timer := Poll) else p;
      if p'.unreliable == [] && (p'.reliable == [] || p'.peerStoppedFlow) {
        QueryAcks(p', script);
      }
    }
  }

  lemma BusyStaysBusy(s: Link, script: seq<ClientAction>, passed: bool)
    requires !s.peerStoppedFlowNew && (!s.awaitsNextFrame || !s.alive.IsAlive())
    ensures AckWaits(Query(s, script).link, passed)
  {
    QueryDisciplined(s, script);
  }

  /** An offer while an RR is due takes the slot. */
  lemma {:induction false} OfferAcks(s: Link, payload: Payload, reliable: bool, script: seq<ClientAction>)
    requires !s.peerStoppedFlowNew && s.alive.IsAlive()
    ensures var r := Send(s, payload, reliable, script).link;
      !r.peerStoppedFlowNew && r.alive == s.alive && (r.awaitsNextFrame ==> !s.peerRequiresAck && !r.peerRequiresAck)
    decreases |script|, 2
  {
    var s' := Enqueued(s, payload, reliable);
    OpportunityDisciplined(s', script);
    OpportunityAcks(s', script);
    if s.peerRequiresAck {
      DueTakesSlot(s', script);
    }
  }

  /** So a query changes nothing about it. */
  lemma {:induction false} QueryAcks(s: Link, script: seq<ClientAction>)
    requires !s.peerStoppedFlowNew
    ensures AckWaits(Query(s, script).link, s.peerRequiresAck)
    decreases |script|, 0
  {
    if script != [] && script[0].Offer? {
      if s.alive.IsAlive() {
        var r := Send(s, script[0].payload, script[0].reliable, script[1..]);
        OfferAcks(s, script[0].payload, script[0].reliable, script[1..]);
        if r.link.awaitsNextFrame {
          QueryAcks(r.link, r.script);
        } else {
          BusyStaysBusy(r.link, r.script, s.peerRequiresAck);
        }
      } else {
        BusyStaysBusy(s, script, s.peerRequiresAck);
      }
    }
  }

  /** The events that end with a transmit opportunity. */
  predicate Takes(s: Link, e: LinkEvent) {
    match e
    case SendPayload(_, _) => true
    case TriggerNextFrame => s.started
    case Deliver(_, invalid) => s.started && !invalid
    case TimerExpired => s.timer == Retransmit || s.peerStoppedFlow
    case StateTimedOut => false
    case ProbeTimedOut => SendsProbe(s.alive)
    case StartLink => true
    case StopLink => false
  }

  predicate PassedBy(s: Link, e: LinkEvent, passed: bool)
    requires Safe(s) && s.rseq < 8 && Enabled(s, e)
  {
    if Takes(s, e) then PassesOver(Prepared(s, e)) else passed
  }

  lemma FrameAcks(s: Link, f: HdlcFrame, invalid: bool, script: seq<ClientAction>)
    requires Inv(s) && f.sseq < 8 && s.started && !invalid
    ensures AckWaits(Receive(s, f, invalid, script).link, PassesOver(AfterFrame(s, f, invalid)))
  {
    OpportunityAcks(AfterFrame(s, f, invalid), script);
  }

  lemma ExpiryAcks(s: Link, script: seq<ClientAction>, passed: bool)
    requires Inv(s) && s.timer != Off && AckWaits(s, passed)
    ensures AckWaits(Expire(s, script).link, PassedBy(s, TimerExpired, passed))
  {
    OpportunityAcks(AfterExpiry(s), script);
  }

  lemma ProbeTimeoutAcks(s: Link, script: seq<ClientAction>, passed: bool)
    requires Inv(s) && s.started && AckWaits(s, passed)
    ensures AckWaits(OnProbeTimeout(s, script).link, PassedBy(s, ProbeTimedOut, passed))
  {
    OpportunityAcks(AfterProbeTimeout(s), script);
  }

  lemma StartAcks(s: Link, script: seq<ClientAction>, passed: bool)
    ensures AckWaits(Start(s, script).link, passed)
  {
    var p := Reset(s).(started := true, sendProbe := true);
    var r := Opportunity(p, script);
    assert !r.link.awaitsNextFrame;
  }

  lemma QuietAcks(s: Link, passed: bool)
    requires Inv(s) && AckWaits(s, passed)
    ensures AckWaits(Stop(s), passed) && AckWaits(s.(alive := Doubted(s.alive)), passed)
  {
  }

  /** The exact condition, event by event. */
  lemma StepAcks(s: Link, e: LinkEvent, script: seq<ClientAction>, passed: bool)
    requires Inv(s) && Enabled(s, e) && AckWaits(s, passed)
    ensures AckWaits(Step(s, e, script).link, PassedBy(s, e, passed))
  {
    match e {
      case SendPayload(payload, reliable) => OpportunityAcks(Enqueued(s, payload, reliable), script);
      case TriggerNextFrame => OpportunityAcks(AfterTrigger(s), script);
      case Deliver(f, invalid) =>
        if s.started && !invalid {
          FrameAcks(s, f, invalid, script);
        }
      case TimerExpired => ExpiryAcks(s, script, passed);
      case StateTimedOut => QuietAcks(s, passed);
      case ProbeTimedOut => ProbeTimeoutAcks(s, script, passed);
      case StartLink => StartAcks(s, script, PassedBy(s, e, passed));
      case StopLink => QuietAcks(s, passed);
    }
  }

  // ---------- Runs ----------

  /** Whether the last opportunity of a run passed a due RR over. */
  predicate Passed(s: Link, moves: seq<Move>, passed: bool)
    requires Inv(s)
    decreases |moves|
  {
    if moves == [] then passed
    else if Enabled(s, moves[0].event) then
      var m := moves[0];
      StepKeeps(s, m.event, m.script);
      Passed(Step(s, m.event, m.script).link, moves[1..], PassedBy(s, m.event, passed))
    else Passed(s, moves[1..], passed)
  }

  /** After every event of every run, through any re-entry: with a free slot on a live
      link nothing that could be sent is waiting, except a due RR, and that exactly if
      the last opportunity noticed a fresh RNR condition and so passed it over. */
  lemma {:induction false} NoLostWakeup(s: Link, moves: seq<Move>, passed: bool)
    requires Inv(s) && Quiescent(s) && AckWaits(s, passed)
    ensures var t := Exec(s, moves); Quiescent(t) && AckWaits(t, Passed(s, moves, passed))
    decreases |moves|
  {
    if moves != [] {
      var m := moves[0];
      if Enabled(s, m.event) {
        StepKeeps(s, m.event, m.script);
        StepQuiesces(s, m.event, m.script);
        StepAcks(s, m.event, m.script, passed);
        NoLostWakeup(Step(s, m.event, m.script).link, moves[1..], PassedBy(s, m.event, passed));
      } else {
        NoLostWakeup(s, moves[1..], passed);
      }
    }
  }

  // ---------- A due RR that waits ----------

  const DATA_FRAME := HdlcFrame(LINK_ADDRESS, I, false, 0, 0, PAYLOAD)
  const RNR_FRAME := HdlcFrame(LINK_ADDRESS, RNR, false, 0, 0, [])

  /** The device sends data and stops the flow while the slot is taken. */
  const PASSING_MOVES: seq<Move> := WAKING_MOVES + [
    Move(SendPayload(PAYLOAD, false), []),
    Move(Deliver(DATA_FRAME, false), []),
    Move(Deliver(RNR_FRAME, false), []),
    Move(TriggerNextFrame, [])]

  lemma DataArrives(s: Link)
    requires Inv(s) && s.started && !s.awaitsNextFrame && s.alive == Heard(s.alive)
    requires s.rseq == 0 && s.sseq == 0 && !s.waitForAck
    ensures Receive(s, DATA_FRAME, false, []).link == s.(rseq := 1, peerRequiresAck := true)
  {
  }

  lemma FlowStops(s: Link)
    requires Inv(s) && s.started && !s.awaitsNextFrame && s.alive == Heard(s.alive)
    requires s.sseq == 0 && !s.waitForAck && !s.peerStoppedFlow
    ensures Receive(s, RNR_FRAME, false, []).link
         == s.(peerStoppedFlow := true, peerStoppedFlowNew := true, peerStoppedFlowQueried := false)
  {
  }

  lemma NoticeStop(s: Link)
    requires s.started && s.alive.IsAlive() && !s.sendProbe && s.srejs == [] && s.unreliable == []
    requires s.peerStoppedFlow && s.peerStoppedFlowNew
    ensures Trigger(s, []).link == s.(awaitsNextFrame := true, peerStoppedFlowNew := false, timer := Poll)
  {
  }

  /** A run after which a due RR waits although the slot is free and the link alive. */
  lemma RRPassedOver()
    ensures var t := Exec(NEW_LINK, PASSING_MOVES);
      t.awaitsNextFrame && t.alive.IsAlive() && t.peerRequiresAck
  {
    var ms := PASSING_MOVES;
    var s4 := GREETED;
    Greets(ms);
    DataArrives(s4);
    var s5 := s4.(rseq := 1, peerRequiresAck := true);
    ExecAt(s4, ms, 4, s5);
    FlowStops(s5);
    var s6 := s5.(peerStoppedFlow := true, peerStoppedFlowNew := true, peerStoppedFlowQueried := false);
    ExecAt(s5, ms, 5, s6);
    NoticeStop(s6);
    ExecAt(s6, ms, 6, s6.(awaitsNextFrame := true, peerStoppedFlowNew := false, timer := Poll));
    assert ms[7..] == [];
  }
}
