/** When the link owes its peer a report, and how it keeps polling a peer that stopped it. */
module LinkPolls {
  import opened HdlcFrames
  import opened AliveStates
  import opened Links
  import opened LinkInvariants
  import opened LinkTheorems
  import opened LinkFrames
  import opened LinkOffers

  // ---------- The reports that are due ----------

  /** An information frame with payload arrived, or the time to poll has come. */
  predicate MakesDue(s: Link, e: LinkEvent) {
    || (e.Deliver? && s.started && !e.invalid && e.frame.IsIFrame() && e.frame.payload != [])
    || (e.TimerExpired? && s.timer == Poll && s.peerStoppedFlow)
  }

  /** A report is due from then on until an I-frame or an RR is handed over. */
  predicate DueAfter(s: Link, e: LinkEvent, t: Link) {
    t.peerRequiresAck <==>
      && !e.StartLink? && !(e.StopLink? && s.started)
      && (s.peerRequiresAck || MakesDue(s, e))
      && !(|t.log.sent| > |s.log.sent| && IsReport(t.log.sent[|s.log.sent|]))
  }

  lemma UnawaitedDue(s: Link)
    ensures Unawaited(s).peerRequiresAck == s.peerRequiresAck
  {
  }

  lemma AckedDue(s: Link, r: uint8)
    requires Safe(s)
    ensures Restarted(s).peerRequiresAck == s.peerRequiresAck && AckedUpTo(s, r).peerRequiresAck == s.peerRequiresAck
  {
  }

  lemma RRDue(s: Link, r: uint8)
    requires Safe(s)
    ensures AckedUpTo(Restarted(s), r).peerRequiresAck == s.peerRequiresAck
  {
    AckedDue(s, r);
    AckedDue(Restarted(s), r);
  }

  lemma StoppedDue(s: Link, r: uint8)
    requires Safe(s)
    ensures AckedByRNR(s, r).peerRequiresAck == s.peerRequiresAck
  {
    UnawaitedDue(Stopped(s));
    assert Stopped(s).peerRequiresAck == s.peerRequiresAck;
  }

  lemma RejectedDue(s: Link, r: uint8)
    ensures RejectedFrom(s, r).peerRequiresAck == s.peerRequiresAck
  {
    UnawaitedDue(s);
    UnawaitedDue(Restarted(s));
    assert Restarted(s).peerRequiresAck == s.peerRequiresAck;
  }

  lemma RequestedDue(s: Link, r: uint8)
    ensures RequestedAgain(s, r).peerRequiresAck == s.peerRequiresAck
  {
    UnawaitedDue(Restarted(s));
    assert Restarted(s).peerRequiresAck == s.peerRequiresAck;
  }

  lemma AcknowledgedDue(s: Link, f: HdlcFrame)
    requires Safe(s)
    ensures Acknowledged(s, f).peerRequiresAck == s.peerRequiresAck
  {
    match f.frameType {
      case I => AckedDue(s, f.rseq);
      case RR => RRDue(s, f.rseq);
      case RNR => StoppedDue(s, f.rseq);
      case REJ => RejectedDue(s, f.rseq);
      case SREJ => RequestedDue(s, f.rseq);
      case _ =>
    }
  }

  lemma NotedDue(s: Link, f: HdlcFrame)
    requires s.rseq < 8 && f.sseq < 8
    ensures Noted(s, f).peerRequiresAck == (s.peerRequiresAck || (f.frameType == I && f.payload != []))
  {
  }

  lemma FrameDue(s: Link, f: HdlcFrame)
    requires Safe(s) && s.rseq < 8 && f.sseq < 8
    ensures Interpreted(s, f).peerRequiresAck == (s.peerRequiresAck || (f.frameType == I && f.payload != []))
  {
    var t := s.(alive := Heard(s.alive));
    NotedDue(t, f);
    AcknowledgedDue(Noted(t, f), f);
  }

  lemma ExpiryDue(s: Link)
    requires s.timer != Off
    ensures AfterExpiry(s).peerRequiresAck == (s.peerRequiresAck || MakesDue(s, TimerExpired))
  {
    UnawaitedDue(s);
  }

  lemma OthersDue(s: Link)
    ensures AfterTrigger(s).peerRequiresAck == s.peerRequiresAck && AfterProbeTimeout(s).peerRequiresAck == s.peerRequiresAck
  {
  }

  lemma PreparedDue(s: Link, e: LinkEvent)
    requires Inv(s) && Enabled(s, e)
    ensures Prepared(s, e).peerRequiresAck <==>
      !e.StartLink? && !(e.StopLink? && s.started) && (s.peerRequiresAck || MakesDue(s, e))
  {
    match e
    case Deliver(f, invalid) =>
      if s.started && !invalid {
        FrameDue(s, f);
      }
    case TimerExpired => ExpiryDue(s);
    case TriggerNextFrame => OthersDue(s);
    case ProbeTimedOut => OthersDue(s);
    case SendPayload(_, _) =>
    case StateTimedOut =>
    case StartLink =>
    case StopLink =>
  }

  lemma StepDue(s: Link, e: LinkEvent, script: seq<ClientAction>)
    requires Inv(s) && Enabled(s, e)
    ensures DueAfter(s, e, Step(s, e, script).link)
  {
    PreparedDue(s, e);
    StepSpeaks(s, e, script);
    StepDisciplined(s, e, script);
  }

  // ---------- Polling ----------

  /** While the peer has stopped the flow a poll is coming: the timer runs for it, or the
      stop has not been noticed yet, or the next RR is a poll and due. */
  predicate Polls(s: Link) {
    s.peerStoppedFlow ==>
      s.timer == Poll || s.peerStoppedFlowNew || (s.peerRequiresAck && !s.peerStoppedFlowQueried)
  }

  lemma {:induction false} OpportunityPolls(p: Link, script: seq<ClientAction>)
    requires Polls(p)
    ensures Polls(Opportunity(p, script).link)
    decreases |script|, 1
  {
    if p.awaitsNextFrame && !p.sendProbe && p.alive.IsAlive() && p.srejs == [] && !MaySendReliable(p) && !ReportsNow(p)
       && Noticed(p).unreliable == [] && (p.reliable == [] || p.peerStoppedFlow) {
      QueryPolls(Noticed(p), script);
    }
  }

  lemma {:induction false} QueryPolls(p: Link, script: seq<ClientAction>)
    requires Polls(p)
    ensures Polls(Query(p, script).link)
    decreases |script|, 0
  {
    if script != [] && script[0].Offer? {
      var r := Send(p, script[0].payload, script[0].reliable, script[1..]);
      OpportunityPolls(Enqueued(p, script[0].payload, script[0].reliable), script[1..]);
      QueryPolls(r.link, r.script);
    }
  }

  lemma StoppedPolls(s: Link, r: uint8)
    requires Shape(s) && Polls(s)
    ensures Polls(AckedByRNR(s, r))
  {
  }

  lemma AckedPolls(s: Link, r: uint8)
    requires Shape(s) && Polls(s)
    ensures Polls(AckedUpTo(s, r)) && Polls(AckedUpTo(Restarted(s), r))
  {
  }

  lemma RejectedPolls(s: Link, r: uint8)
    ensures Polls(RejectedFrom(s, r)) && Polls(RequestedAgain(s, r))
  {
  }

  lemma AcknowledgedPolls(s: Link, f: HdlcFrame)
    requires Shape(s) && Polls(s)
    ensures Polls(Acknowledged(s, f))
  {
    match f.frameType {
      case I => AckedPolls(s, f.rseq);
      case RR => AckedPolls(s, f.rseq);
      case RNR => StoppedPolls(s, f.rseq);
      case REJ => RejectedPolls(s, f.rseq);
      case SREJ => RejectedPolls(s, f.rseq);
      case _ =>
    }
  }

  lemma NotedPolls(s: Link, f: HdlcFrame)
    requires s.started && s.rseq < 8 && f.sseq < 8 && Shape(s) && Polls(s)
    ensures Polls(Noted(s, f)) && Shape(Noted(s, f))
  {
  }

  lemma FramePolls(s: Link, f: HdlcFrame)
    requires s.started && Shape(s) && Polls(s) && f.sseq < 8
    ensures Polls(Interpreted(s, f))
  {
    var t := s.(alive := Heard(s.alive));
    NotedPolls(t, f);
    AcknowledgedPolls(Noted(t, f), f);
  }

  lemma ExpiryPolls(s: Link)
    requires Shape(s) && Polls(s) && s.timer != Off
    ensures Polls(AfterExpiry(s))
  {
  }

  lemma OthersPoll(s: Link)
    requires Polls(s)
    ensures Polls(AfterTrigger(s)) && Polls(AfterProbeTimeout(s)) && Polls(Stop(s))
  {
  }

  lemma PreparedPolls(s: Link, e: LinkEvent)
    requires Inv(s) && Enabled(s, e) && Polls(s)
    ensures Polls(Prepared(s, e))
  {
    match e
    case Deliver(f, invalid) =>
      if s.started && !invalid {
        FramePolls(s, f);
      }
    case TimerExpired => ExpiryPolls(s);
    case SendPayload(_, _) =>
    case StateTimedOut =>
    case StartLink =>
    case _ => OthersPoll(s);
  }

  lemma StartPolls(s: Link, script: seq<ClientAction>)
    ensures Polls(Start(s, script).link)
  {
    var p := Reset(s).(started := true, sendProbe := true);
    var r := Opportunity(p, script);
    OpportunityPolls(p, script);
    OpportunityPolls(r.link, r.script);
  }

  lemma StepPolls(s: Link, e: LinkEvent, script: seq<ClientAction>)
    requires Inv(s) && Enabled(s, e) && Polls(s)
    ensures Polls(Step(s, e, script).link)
  {
    if e.StartLink? {
      StartPolls(s, script);
    } else {
      PreparedPolls(s, e);
      OpportunityPolls(Prepared(s, e), script);
      StepIs(s, e, script);
    }
  }

  /** In every run: a link whose peer has stopped the flow goes on polling it. */
  lemma {:induction false} PollingGoesOn(s: Link, moves: seq<Move>)
    requires Inv(s) && Polls(s)
    ensures Polls(Exec(s, moves))
    decreases |moves|
  {
    if moves != [] {
      var m := moves[0];
      if Enabled(s, m.event) {
        StepKeeps(s, m.event, m.script);
        StepPolls(s, m.event, m.script);
        PollingGoesOn(Step(s, m.event, m.script).link, moves[1..]);
      } else {
        PollingGoesOn(s, moves[1..]);
      }
    }
  }

  /** When the time to poll has come and nothing more urgent waits, an RR goes out that
      asks for an answer, and the timer runs again. */
  lemma PollIsSent(s: Link, script: seq<ClientAction>)
    requires Inv(s) && s.timer == Poll && s.peerStoppedFlow && !s.peerStoppedFlowNew
    requires s.awaitsNextFrame && !s.sendProbe && s.alive.IsAlive() && s.srejs == []
    ensures var t := Expire(s, script).link;
      && t.log.sent == s.log.sent + [HdlcFrame(0x30, RR, true, s.rseq, 0, [])]
      && t.timer == Poll && t.peerStoppedFlowQueried && !t.peerRequiresAck
  {
  }

  /** When the peer lets the flow go on, polling ends. */
  lemma RestartEndsPolling(s: Link, f: HdlcFrame)
    requires Inv(s) && s.peerStoppedFlow && f.frameType in {RR, REJ, SREJ} && f.sseq < 8
    ensures var p := Interpreted(s, f); !p.peerStoppedFlow && p.timer == Off && !p.waitForAck
  {
    var heard := s.(alive := Heard(s.alive));
    assert Noted(heard, f).peerStoppedFlow && !Noted(heard, f).waitForAck;
    RestartedStops(Noted(heard, f), f.rseq);
  }

  lemma RestartedStops(s: Link, r: uint8)
    requires s.peerStoppedFlow && !s.waitForAck
    ensures var t := AckedUpTo(Restarted(s), r); !t.peerStoppedFlow && t.timer == Off && !t.waitForAck
    ensures var t := RejectedFrom(s, r); !t.peerStoppedFlow && t.timer == Off && !t.waitForAck
    ensures var t := RequestedAgain(s, r); !t.peerStoppedFlow && t.timer == Off && !t.waitForAck
  {
  }

  /** A timer fires once: with the slot taken it is off afterwards, and what its expiry
      calls for waits. */
  lemma TimerFiresOnce(s: Link, script: seq<ClientAction>)
    requires Inv(s) && s.timer != Off && !s.awaitsNextFrame
    ensures var t := Expire(s, script).link;
      && t.timer == Off && t.log.sent == s.log.sent && !t.awaitsNextFrame
      && (if s.timer == Retransmit then !t.waitForAck && t.reliable == s.reliable
          else t.waitForAck == s.waitForAck && (s.peerStoppedFlow ==> t.peerRequiresAck && !t.peerStoppedFlowQueried))
  {
  }
}
