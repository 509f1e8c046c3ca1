/** What holds of the link entity in every run, whatever the peer sends. */
module LinkInvariants {
  import opened HdlcFrames
  import opened FrameGenerator
  import opened AliveStates
  import opened Links
  import opened Stutters

  // ---------- What was sent ----------

  /** The payloads of the information frames among those sent. */
  function IPayloads(sent: seq<Printable>): seq<Payload> {
    if sent == [] then []
    else
      var f := sent[|sent| - 1];
      IPayloads(sent[..|sent| - 1]) + (if f.IsIFrame() then [f.payload] else [])
  }

  function UIPayloads(sent: seq<Printable>): seq<Payload> {
    if sent == [] then []
    else
      var f := sent[|sent| - 1];
      UIPayloads(sent[..|sent| - 1]) + (if f.frameType == UI then [f.payload] else [])
  }

  /** The numbers of the frames requested again, as handed to the generator. */
  function SrejNumbers(sent: seq<Printable>): seq<uint8> {
    if sent == [] then []
    else
      var f := sent[|sent| - 1];
      SrejNumbers(sent[..|sent| - 1]) + (if f.frameType == SREJ then [f.rseq] else [])
  }

  lemma SentOneMore(sent: seq<Printable>, f: Printable)
    ensures IPayloads(sent + [f]) == if f.IsIFrame() then IPayloads(sent) + [f.payload] else IPayloads(sent)
    ensures UIPayloads(sent + [f]) == if f.frameType == UI then UIPayloads(sent) + [f.payload] else UIPayloads(sent)
    ensures SrejNumbers(sent + [f]) == if f.frameType == SREJ then SrejNumbers(sent) + [f.rseq] else SrejNumbers(sent)
  {
    assert (sent + [f])[..|sent|] == sent;
  }

  // ---------- The invariant ----------

  /** Everything is as after a reset, apart from the queues. */
  predicate Resting(s: Link) {
    && s.awaitsNextFrame && !s.sendProbe && !s.alive.IsAlive() && s.timer == Off
    && !s.peerStoppedFlow && !s.peerStoppedFlowNew && !s.peerRequiresAck && !s.waitForAck && s.srejs == []
  }

  predicate Shape(s: Link) {
    && s.sseq < 8 && s.rseq < 8
    && Safe(s)
    && (s.peerStoppedFlow ==> !s.waitForAck)
    && (s.timer == Retransmit ==> s.waitForAck)
    && (s.alive.frameWasReceived ==> s.alive.phase == Found)
    && (!s.started ==> Resting(s))
  }

  /** The information frames sent so far account for the popped payloads, in order
      and each at least once, and then perhaps for the current head. */
  predicate HeadRepeats(sent: seq<Payload>, popped: seq<Payload>, reliable: seq<Payload>, waitForAck: bool) {
    || (!waitForAck && Stutter(sent, popped))
    || (reliable != [] && Stutter(sent, popped + [reliable[0]]))
  }

  predicate Conserved(log: Log, reliable: seq<Payload>, unreliable: seq<Payload>, srejs: seq<uint8>, waitForAck: bool) {
    && log.enqueued == log.popped + reliable
    && log.enqueuedUnreliable == UIPayloads(log.sent) + unreliable
    && log.gap == log.requested + srejs
    && SrejNumbers(log.sent) == log.requestedBefore + log.requested
    && HeadRepeats(IPayloads(log.sent), log.popped, reliable, waitForAck)
  }

  predicate Inv(s: Link) {
    Shape(s) && Conserved(s.log, s.reliable, s.unreliable, s.srejs, s.waitForAck)
  }

  lemma TransmitKeeps(s: Link, f: Printable)
    requires Inv(s) && s.started && f.frameType !in {I, UI, SREJ}
    ensures Inv(Transmit(s, f))
  {
    SentOneMore(s.log.sent, f);
  }

  lemma MovedOver<T>(done: seq<T>, todo: seq<T>)
    requires todo != []
    ensures done + [todo[0]] + todo[1..] == done + todo
  {
  }

  lemma RequestConserved(log: Log, reliable: seq<Payload>, unreliable: seq<Payload>, srejs: seq<uint8>, waitForAck: bool)
    requires Conserved(log, reliable, unreliable, srejs, waitForAck) && srejs != []
    ensures var log' := log.(requested := log.requested + [srejs[0]], sent := log.sent + [SFrame(SREJ, false, srejs[0])]);
      Conserved(log', reliable, unreliable, srejs[1..], waitForAck)
  {
    SentOneMore(log.sent, SFrame(SREJ, false, srejs[0]));
    MovedOver(log.requested, srejs);
    assert log.requestedBefore + log.requested + [srejs[0]] == log.requestedBefore + (log.requested + [srejs[0]]);
  }

  lemma RequestKeeps(s: Link)
    requires Inv(s) && s.started && s.srejs != []
    ensures Inv(Transmit(Requested(s), SFrame(SREJ, false, s.srejs[0])))
  {
    RequestConserved(s.log, s.reliable, s.unreliable, s.srejs, s.waitForAck);
  }

  lemma SentReliableKeeps(s: Link)
    requires Inv(s) && s.started && MaySendReliable(s)
    ensures Inv(SentReliable(s))
  {
    SentOneMore(s.log.sent, IFrame(s.sseq, s.rseq, s.reliable[0]));
    StutterMore(IPayloads(s.log.sent), s.log.popped, s.reliable[0]);
  }

  lemma UnreliableConserved(log: Log, reliable: seq<Payload>, unreliable: seq<Payload>, srejs: seq<uint8>, waitForAck: bool)
    requires Conserved(log, reliable, unreliable, srejs, waitForAck) && unreliable != []
    ensures var log' := log.(sent := log.sent + [UIFrame(unreliable[0])]);
      Conserved(log', reliable, unreliable[1..], srejs, waitForAck)
  {
    SentOneMore(log.sent, UIFrame(unreliable[0]));
    MovedOver(UIPayloads(log.sent), unreliable);
  }

  lemma SentUnreliableKeeps(s: Link)
    requires Inv(s) && s.started && s.unreliable != []
    ensures Inv(SentUnreliable(s))
  {
    UnreliableConserved(s.log, s.reliable, s.unreliable, s.srejs, s.waitForAck);
  }

  lemma EnqueuedKeeps(s: Link, payload: Payload, reliable: bool)
    requires Inv(s)
    ensures Inv(Enqueued(s, payload, reliable))
  {
    var s' := Enqueued(s, payload, reliable);
    if reliable && s.reliable != [] {
      assert s'.reliable[0] == s.reliable[0];
    }
  }

  lemma {:induction false} OpportunityKeeps(s: Link, script: seq<ClientAction>)
    requires Inv(s)
    ensures Inv(Opportunity(s, script).link)
    decreases |script|, 1
  {
    if !s.awaitsNextFrame || (!s.sendProbe && !s.alive.IsAlive()) {
    } else if s.sendProbe {
      TransmitKeeps(s.(sendProbe := false), TEST_FRAME);
    } else if s.srejs != [] {
      RequestKeeps(s);
    } else if MaySendReliable(s) {
      SentReliableKeeps(s);
    } else if !s.peerStoppedFlowNew && s.peerRequiresAck {
      var poll := s.peerStoppedFlow && !s.peerStoppedFlowQueried;
      TransmitKeeps(s.(peerRequiresAck := false,
                       peerStoppedFlowQueried := s.peerStoppedFlowQueried || poll,
                       timer := if poll then Poll else s.timer),
                    SFrame(RR, poll, s.rseq));
    } else {
      var s' := if s.peerStoppedFlowNew then s.(peerStoppedFlowNew := false, timer := Poll) else s;
      assert Inv(s');
      if s'.unreliable != [] {
        SentUnreliableKeeps(s');
      } else if s'.reliable == [] || s'.peerStoppedFlow {
        QueryKeeps(s', script);
      }
    }
  }

  lemma {:induction false} QueryKeeps(s: Link, script: seq<ClientAction>)
    requires Inv(s)
    ensures Inv(Query(s, script).link)
    decreases |script|, 0
  {
    if script != [] && script[0].Offer? {
      var s' := Enqueued(s, script[0].payload, script[0].reliable);
      EnqueuedKeeps(s, script[0].payload, script[0].reliable);
      OpportunityKeeps(s', script[1..]);
      var r := Opportunity(s', script[1..]);
      QueryKeeps(r.link, r.script);
    }
  }

  lemma NotedKeeps(s: Link, f: HdlcFrame)
    requires Inv(s) && s.started && f.sseq < 8
    ensures Inv(Noted(s, f))
  {
    if f.HasPayload() && f.IsIFrame() && s.rseq != f.sseq {
      var gap := GapList(s.rseq, f.sseq);
      assert [] + gap == gap;
      assert Conserved(NewGap(s.log, gap), s.reliable, s.unreliable, gap, s.waitForAck);
    }
  }

  lemma PoppedKeeps(s: Link)
    requires Inv(s) && s.started && s.waitForAck
    ensures Inv(Popped(Unawaited(s)))
  {
    assert s.reliable == [s.reliable[0]] + s.reliable[1..];
  }

  lemma UnawaitedKeeps(s: Link)
    requires Inv(s) && s.started
    ensures Inv(Unawaited(s)) && Inv(Restarted(s))
  {
  }

  lemma StoppedThenUnawaitedKeeps(s: Link)
    requires Inv(s) && s.started
    ensures Inv(Unawaited(Stopped(s)))
  {
  }

  lemma RRKeeps(s: Link, r: uint8)
    requires Inv(s) && s.started && r < 8
    ensures Inv(AckedUpTo(Restarted(s), r))
  {
    UnawaitedKeeps(s);
    AckKeeps(Restarted(s), r);
  }

  lemma AcknowledgedKeeps(s: Link, f: HdlcFrame)
    requires Inv(s) && s.started && f.rseq < 8
    ensures Inv(Acknowledged(s, f))
  {
    match f.frameType {
      case I => AckKeeps(s, f.rseq);
      case RR => RRKeeps(s, f.rseq);
      case RNR => RnrKeeps(s, f.rseq);
      case REJ => RejKeeps(s, f.rseq);
      case SREJ => SrejKeeps(s, f.rseq);
      case _ =>
    }
  }

  lemma RejKeeps(s: Link, r: uint8)
    requires Inv(s) && s.started && r < 8
    ensures Inv(RejectedFrom(s, r))
  {
    UnawaitedKeeps(s);
    UnawaitedKeeps(Restarted(s));
    NumberKeeps(Restarted(s), (r + 7) % 8);
    NumberKeeps(Unawaited(Restarted(s)), (r + 7) % 8);
  }

  lemma SrejKeeps(s: Link, r: uint8)
    requires Inv(s) && s.started && r < 8
    ensures Inv(RequestedAgain(s, r))
  {
    UnawaitedKeeps(s);
    UnawaitedKeeps(Restarted(s));
  }

  lemma NumberKeeps(s: Link, r: uint8)
    requires Inv(s) && s.started && r < 8
    ensures Inv(s.(sseq := r))
  {
  }

  lemma AckKeeps(s: Link, r: uint8)
    requires Inv(s) && s.started && r < 8
    ensures Inv(AckedUpTo(s, r))
  {
    if AcksHead(s, r) {
      PoppedKeeps(s);
      NumberKeeps(Popped(Unawaited(s)), r);
    } else {
      NumberKeeps(s, r);
    }
  }

  lemma RnrKeeps(s: Link, r: uint8)
    requires Inv(s) && s.started && r < 8
    ensures Inv(AckedByRNR(s, r))
  {
    var s' := Stopped(s);
    if AcksHead(s', r) {
      PoppedKeeps(s);
      NumberKeeps(Stopped(Popped(Unawaited(s))), r);
    } else if s'.waitForAck {
      StoppedThenUnawaitedKeeps(s);
      NumberKeeps(Unawaited(s'), r);
    } else {
      NumberKeeps(s', r);
    }
  }

  lemma ReceiveKeeps(s: Link, f: HdlcFrame, invalid: bool, script: seq<ClientAction>)
    requires Inv(s) && f.sseq < 8 && f.rseq < 8
    ensures Inv(Receive(s, f, invalid, script).link)
  {
    if s.started && !invalid {
      var heard := s.(alive := Heard(s.alive));
      NotedKeeps(heard, f);
      AcknowledgedKeeps(Noted(heard, f), f);
      OpportunityKeeps(Interpreted(s, f), script);
    }
  }

  lemma ResetKeeps(s: Link)
    requires Inv(s)
    ensures Inv(Reset(s)) && Inv(Reset(s).(started := true))
  {
  }

  lemma ExpireKeeps(s: Link, script: seq<ClientAction>)
    requires Inv(s) && s.timer != Off
    ensures Inv(Expire(s, script).link)
  {
    if s.timer == Retransmit {
      UnawaitedKeeps(s);
      OpportunityKeeps(Unawaited(s), script);
    } else if s.peerStoppedFlow {
      OpportunityKeeps(s.(timer := Off, peerRequiresAck := true, peerStoppedFlowQueried := false), script);
    }
  }

  lemma StartKeeps(s: Link, script: seq<ClientAction>)
    requires Inv(s)
    ensures Inv(Start(s, script).link)
  {
    ResetKeeps(s);
    var s' := Reset(s).(started := true, sendProbe := true);
    OpportunityKeeps(s', script);
    var r := Opportunity(s', script);
    OpportunityKeeps(r.link, r.script);
  }

  lemma SendKeeps(s: Link, payload: Payload, reliable: bool, script: seq<ClientAction>)
    requires Inv(s)
    ensures Inv(Send(s, payload, reliable, script).link)
  {
    EnqueuedKeeps(s, payload, reliable);
    OpportunityKeeps(Enqueued(s, payload, reliable), script);
  }

  lemma TriggerKeeps(s: Link, script: seq<ClientAction>)
    requires Inv(s)
    ensures Inv(Trigger(s, script).link)
  {
    if s.started {
      OpportunityKeeps(s.(awaitsNextFrame := true), script);
    }
  }

  lemma AliveKeeps(s: Link, script: seq<ClientAction>)
    requires Inv(s) && s.started
    ensures Inv(s.(alive := Doubted(s.alive)))
    ensures Inv(OnProbeTimeout(s, script).link)
  {
    if SendsProbe(s.alive) {
      OpportunityKeeps(s.(alive := Probed(s.alive), sendProbe := true), script);
    }
  }

  /** The invariant holds in every run: any events, any frames, any re-entry. */
  lemma StepKeeps(s: Link, e: LinkEvent, script: seq<ClientAction>)
    requires Inv(s) && Enabled(s, e)
    ensures Inv(Step(s, e, script).link)
  {
    match e
    case SendPayload(payload, reliable) => SendKeeps(s, payload, reliable, script);
    case TriggerNextFrame => TriggerKeeps(s, script);
    case Deliver(f, invalid) => ReceiveKeeps(s, f, invalid, script);
    case TimerExpired => ExpireKeeps(s, script);
    case StateTimedOut => AliveKeeps(s, script);
    case ProbeTimedOut => AliveKeeps(s, script);
    case StartLink => StartKeeps(s, script);
    case StopLink => ResetKeeps(s);
  }
}
