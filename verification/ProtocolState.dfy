/** The protocol entity with its fields, updated in place.

  Every method is proved to do what the value-level reaction of module Links says, so
  that the theorems about links hold of it.  The frames it hands over are serialised
  and stuffed on the way to the line.  Methods that may query the clients for payload
  take a script of the clients' actions and return what is left of it.
 */
module ProtocolStates {
  import opened Fcs16
  import opened HdlcFrames
  import opened FrameGenerator
  import opened FrameParsers
  import opened Framing
  import opened AliveStates
  import opened Links
  import opened LinkInvariants
  import opened LinkStreams

  // ---------- What is written to the line ----------

  lemma {:induction false} EncodedStreamSnoc(fs: seq<Printable>, f: Printable)
    ensures EncodedStream(fs + [f]) == EncodedStream(fs) + Encoded(f)
  {
    if fs == [] {
      assert [f][1..] == [];
      assert EncodedStream([f]) == Encoded(f) + EncodedStream([]);
    } else {
      EncodedStreamSnoc(fs[1..], f);
      assert (fs + [f])[1..] == fs[1..] + [f];
      Regroup3(Encoded(fs[0]), EncodedStream(fs[1..]), Encoded(f));
    }
  }

  class ProtocolState {
    var started: bool
    var awaitsNextHDLCFrame: bool
    var sSeqOutgoing: uint8
    var rSeqIncoming: uint8
    var sendProbe: bool
    var peerStoppedFlow: bool
    var peerStoppedFlowNew: bool
    var peerStoppedFlowQueried: bool
    var peerRequiresAck: bool
    var waitForAck: bool
    var srejs: seq<uint8>
    var waitQueueReliable: seq<Payload>
    var waitQueueUnreliable: seq<Payload>
    var timer: Timer
    const aliveState: AliveState
    const frameParser: FrameParser

    ghost var log: Log
    ghost var line: seq<byte>   // everything written to the serial line

    ghost function View(): Link
      reads this, aliveState
    {
      Link(started, awaitsNextHDLCFrame, sSeqOutgoing, rSeqIncoming, sendProbe,
           peerStoppedFlow, peerStoppedFlowNew, peerStoppedFlowQueried, peerRequiresAck, waitForAck,
           srejs, waitQueueReliable, waitQueueUnreliable, aliveState.View(), timer, log)
    }

    /** The parts fit together. */
    ghost predicate Wired()
      reads this, frameParser
    {
      frameParser.Valid() && line == EncodedStream(log.sent)
    }

    /** Holds between any two events. */
    ghost predicate Valid()
      reads this, aliveState, frameParser
    {
      Wired() && Inv(View())
    }

    constructor ()
      ensures Valid() && fresh(aliveState) && fresh(frameParser)
      ensures View() == NEW_LINK && frameParser.View() == HUNTING
    {
      aliveState := new AliveState();
      frameParser := new FrameParser();
      started := false;
      awaitsNextHDLCFrame := true;
      sSeqOutgoing := 0;
      rSeqIncoming := 0;
      sendProbe := false;
      peerStoppedFlow := false;
      peerStoppedFlowNew := false;
      peerStoppedFlowQueried := false;
      peerRequiresAck := false;
      waitForAck := false;
      srejs := [];
      waitQueueReliable := [];
      waitQueueUnreliable := [];
      timer := Off;
      log := NO_LOG;
      line := [];
    }

    method Reset()
      requires Wired()
      modifies this, aliveState, frameParser
      ensures Wired() && line == old(line)
      ensures View() == Links.Reset(old(View())) && frameParser.View() == HUNTING
    {
      aliveState.Stop();
      ResetFields();
      frameParser.Reset();
    }

    method ResetFields()
      modifies this
      ensures View() == Links.Reset(old(View())).(alive := aliveState.View())
      ensures line == old(line)
    {
      ResetFlow();
      timer := Off;
      started, awaitsNextHDLCFrame := false, true;
      sSeqOutgoing, rSeqIncoming := 0, 0;
      srejs := [];
      log := NewGap(log, []);
    }

    method ResetFlow()
      modifies this
      ensures View() == old(View()).(sendProbe := false, peerStoppedFlow := false, peerStoppedFlowNew := false,
                                     peerStoppedFlowQueried := false, peerRequiresAck := false, waitForAck := false)
      ensures line == old(line)
    {
      sendProbe := false;
      peerStoppedFlow, peerStoppedFlowNew, peerStoppedFlowQueried := false, false, false;
      peerRequiresAck, waitForAck := false, false;
    }

    // ---------- Handing a frame over ----------

    method WireImage(frame: Printable) returns (escaped: seq<byte>)
      ensures escaped == Encoded(frame)
    {
      var buffer := SerializeFrame(frame);
      var capacity;
      escaped, capacity := EscapeFrame(buffer);
      assert buffer[1..|buffer| - 1] == Body(frame);
    }

    /** The final part of a transmit opportunity. */
    method TransmitFrame(frame: Printable)
      requires Wired()
      modifies this
      ensures Wired()
      ensures View() == Transmit(old(View()), frame)
    {
      awaitsNextHDLCFrame := false;
      var escaped := WireImage(frame);
      WriteLine(frame, escaped);
    }

    method WriteLine(frame: Printable, escaped: seq<byte>)
      requires Wired() && escaped == Encoded(frame)
      modifies this
      ensures Wired()
      ensures View() == old(View()).(log := old(log).(sent := old(log).sent + [frame]))
    {
      EncodedStreamSnoc(log.sent, frame);
      line := line + escaped;
      log := log.(sent := log.sent + [frame]);
    }

    method PrepareIFrame() returns (frame: Printable)
      requires waitQueueReliable != []
      ensures frame == IFrame(sSeqOutgoing, rSeqIncoming, waitQueueReliable[0])
    {
      var f := EMPTY_FRAME;
      f := f.(address := 0x30);
      f := f.(frameType := I);
      f := f.(pf := false);
      f := f.(sseq := sSeqOutgoing);
      f := f.(rseq := rSeqIncoming);
      f := f.(payload := waitQueueReliable[0]);
      frame := f;
    }

    method PrepareSFrameRR() returns (frame: Printable)
      ensures frame == SFrame(RR, false, rSeqIncoming)
    {
      var f := EMPTY_FRAME;
      f := f.(address := 0x30);
      f := f.(frameType := RR);
      f := f.(pf := false);
      f := f.(rseq := rSeqIncoming);
      frame := f;
    }

    method PrepareSFrameSREJ() returns (frame: Printable)
      requires srejs != []
      modifies this
      ensures frame == SFrame(SREJ, false, old(srejs)[0])
      ensures View() == Requested(old(View())) && line == old(line)
    {
      var f := EMPTY_FRAME;
      f := f.(address := 0x30);
      f := f.(frameType := SREJ);
      f := f.(pf := false);
      f := f.(rseq := srejs[0]);
      log := log.(requested := log.requested + [srejs[0]]);
      srejs := srejs[1..];
      frame := f;
    }

    method PrepareUFrameUI() returns (frame: Printable)
      requires waitQueueUnreliable != []
      ensures frame == UIFrame(waitQueueUnreliable[0])
    {
      var f := EMPTY_FRAME;
      f := f.(address := 0x30);
      f := f.(frameType := UI);
      f := f.(pf := false);
      f := f.(payload := waitQueueUnreliable[0]);
      frame := f;
    }

    method PrepareUFrameTEST() returns (frame: Printable)
      ensures frame == TEST_FRAME
    {
      var f := EMPTY_FRAME;
      f := f.(address := 0x30);
      f := f.(frameType := TEST);
      f := f.(pf := false);
      frame := f;
    }

    // ---------- The transmit opportunity ----------

    /** Prepares the next frame by priority, or an empty one if there is none; in that
        case the clients may have been queried. */
    method PrepareNextFrame(script: seq<ClientAction>) returns (frame: HdlcFrame, rest: seq<ClientAction>)
      requires Wired() && awaitsNextHDLCFrame
      modifies this
      ensures Wired()
      ensures frame.IsEmpty() ==> Ran(View(), rest) == Opportunity(old(View()), script)
      ensures !frame.IsEmpty() ==>
        HasControlCode(frame.frameType) && Ran(Transmit(View(), frame), rest) == Opportunity(old(View()), script)
      decreases |script|, 3
    {
      rest := script;
      frame := EMPTY_FRAME;
      if sendProbe {
        sendProbe := false;
        frame := PrepareUFrameTEST();
      }
      if frame.IsEmpty() && aliveState.IsAlive() {
        frame, rest := PrepareAliveFrame(script);
      }
    }

    /** The frames that are sent on a link that is alive. */
    method PrepareAliveFrame(script: seq<ClientAction>) returns (frame: HdlcFrame, rest: seq<ClientAction>)
      requires Wired() && awaitsNextHDLCFrame && !sendProbe && aliveState.IsAlive()
      modifies this
      ensures Wired()
      ensures frame.IsEmpty() ==> Ran(View(), rest) == Opportunity(old(View()), script)
      ensures !frame.IsEmpty() ==>
        HasControlCode(frame.frameType) && Ran(Transmit(View(), frame), rest) == Opportunity(old(View()), script)
      decreases |script|, 2
    {
      rest := script;
      frame := EMPTY_FRAME;
      if srejs != [] {
        frame := PrepareSFrameSREJ();
      }
      if frame.IsEmpty() && waitQueueReliable != [] && !waitForAck && !peerStoppedFlow {
        frame := PrepareReliable();
      }
      if frame.IsEmpty() {
        frame, rest := PrepareOtherFrame(script);
      }
    }

    method PrepareReliable() returns (frame: Printable)
      requires waitQueueReliable != []
      modifies this
      ensures Transmit(View(), frame) == SentReliable(old(View())) && !frame.IsEmpty()
      ensures line == old(line) && log == old(log)
    {
      frame := PrepareIFrame();
      waitForAck := true;
      peerRequiresAck := false;
      timer := Retransmit;
    }

    /** An RR is due, or a new stop of the flow starts the polling of the peer. */
    method PrepareAcknowledgement() returns (frame: HdlcFrame)
      requires Wired() && awaitsNextHDLCFrame
      modifies this
      ensures Wired()
      ensures old(peerStoppedFlowNew) ==>
        frame.IsEmpty() && View() == old(View()).(peerStoppedFlowNew := false, timer := Poll)
      ensures !old(peerStoppedFlowNew) && old(peerRequiresAck) ==>
        frame.frameType == RR && Transmit(View(), frame) == SentRR(old(View()))
      ensures !old(peerStoppedFlowNew) && !old(peerRequiresAck) ==>
        frame.IsEmpty() && View() == old(View())
    {
      frame := EMPTY_FRAME;
      if peerRequiresAck || peerStoppedFlowNew {
        var startTimer := false;
        if peerStoppedFlowNew {
          peerStoppedFlowNew := false;
          startTimer := true;
        } else {
          frame, startTimer := PrepareAckOrPoll();
        }
        if startTimer {
          timer := Poll;
        }
      }
    }

    method PrepareAckOrPoll() returns (frame: Printable, startTimer: bool)
      modifies this
      ensures startTimer == old(peerStoppedFlow && !peerStoppedFlowQueried)
      ensures frame == SFrame(RR, startTimer, rSeqIncoming)
      ensures View() == old(View()).(peerRequiresAck := false,
                                     peerStoppedFlowQueried := old(peerStoppedFlowQueried) || startTimer)
      ensures line == old(line)
    {
      frame := PrepareSFrameRR();
      startTimer := false;
      peerRequiresAck := false;
      if peerStoppedFlow && !peerStoppedFlowQueried {
        frame := frame.(pf := true);
        peerStoppedFlowQueried := true;
        startTimer := true;
      }
    }

    /** The frames of lower priority: RR, then unreliable payload. */
    method PrepareOtherFrame(script: seq<ClientAction>) returns (frame: HdlcFrame, rest: seq<ClientAction>)
      requires Wired() && awaitsNextHDLCFrame && !sendProbe && aliveState.IsAlive() && srejs == []
      requires !MaySendReliable(View())
      modifies this
      ensures Wired()
      ensures frame.IsEmpty() ==> Ran(View(), rest) == Opportunity(old(View()), script)
      ensures !frame.IsEmpty() ==>
        HasControlCode(frame.frameType) && Ran(Transmit(View(), frame), rest) == Opportunity(old(View()), script)
      decreases |script|, 1
    {
      rest := script;
      frame := PrepareAcknowledgement();
      if frame.IsEmpty() && waitQueueUnreliable != [] {
        frame := PrepareUFrameUI();
        waitQueueUnreliable := waitQueueUnreliable[1..];
      }
      if frame.IsEmpty() {
        var queryReliable := waitQueueUnreliable == [] && waitQueueReliable == [] && !peerStoppedFlow;
        var queryUnreliable := waitQueueUnreliable == [] && (waitQueueReliable == [] || peerStoppedFlow);
        if queryReliable || queryUnreliable {
          rest := QueryForPayload(rest);
        }
      }
    }

    method OpportunityForTransmission(script: seq<ClientAction>) returns (rest: seq<ClientAction>)
      requires Wired()
      modifies this
      ensures Wired()
      ensures Ran(View(), rest) == Opportunity(old(View()), script)
      decreases |script|, 4
    {
      rest := script;
      if !awaitsNextHDLCFrame {
        return;
      }
      var frame;
      frame, rest := PrepareNextFrame(script);
      if !frame.IsEmpty() {
        TransmitFrame(frame);
      }
    }

    /** The serial port handler asks its clients, who may send payload at once. */
    method QueryForPayload(script: seq<ClientAction>) returns (rest: seq<ClientAction>)
      requires Wired()
      modifies this
      ensures Wired()
      ensures Ran(View(), rest) == Query(old(View()), script)
      decreases |script|, 0
    {
      rest := script;
      while rest != [] && rest[0].Offer?
        invariant Wired() && |rest| <= |script|
        invariant Query(View(), rest) == Query(old(View()), script)
        decreases |rest|
      {
        rest := SendPayload(rest[0].payload, rest[0].reliable, rest[1..]);
      }
      if rest != [] {
        rest := rest[1..];
      }
    }

    method SendPayload(payload: Payload, reliable: bool, script: seq<ClientAction>) returns (rest: seq<ClientAction>)
      requires Wired()
      modifies this
      ensures Wired()
      ensures Ran(View(), rest) == Send(old(View()), payload, reliable, script)
      decreases |script|, 5
    {
      if reliable {
        waitQueueReliable := waitQueueReliable + [payload];
        log := log.(enqueued := log.enqueued + [payload]);
      } else {
        waitQueueUnreliable := waitQueueUnreliable + [payload];
        log := log.(enqueuedUnreliable := log.enqueuedUnreliable + [payload]);
      }
      assert View() == Enqueued(old(View()), payload, reliable);
      var sendReliableFrames := started;
      sendReliableFrames := sendReliableFrames || peerStoppedFlow == false;
      sendReliableFrames := sendReliableFrames || waitQueueReliable != [];
      var sendUnreliableFrames := started;
      sendUnreliableFrames := sendUnreliableFrames || waitQueueUnreliable != [];
      rest := script;
      if awaitsNextHDLCFrame && (sendReliableFrames || sendUnreliableFrames) {
        rest := OpportunityForTransmission(script);
      }
    }

    // ---------- Frames from the peer ----------

    /** Counts up in an unsigned char and compares modulo 8. */
    method RequestMissing(sseq: uint8)
      requires rSeqIncoming < 8 && sseq < 8
      modifies this
      ensures View() == var gap := GapList(old(rSeqIncoming), sseq);
        old(View()).(srejs := gap, log := NewGap(old(log), gap))
      ensures line == old(line)
    {
      ghost var gap := GapList(rSeqIncoming, sseq);
      var missing: seq<uint8> := [];
      var it := rSeqIncoming;
      while it % 8 != sseq
        invariant 0 <= it - rSeqIncoming <= |gap|
        invariant missing == gap[..it - rSeqIncoming]
        decreases |gap| - (it - rSeqIncoming)
      {
        missing := missing + [it];
        it := it + 1;
      }
      srejs := missing;
      log := NewGap(log, gap);
    }

    method NoteInformation(frame: HdlcFrame)
      requires rSeqIncoming < 8 && frame.sseq < 8
      modifies this
      ensures View() == Noted(old(View()), frame) && line == old(line)
    {
      if frame.HasPayload() {
        if frame.IsIFrame() {
          if rSeqIncoming != frame.sseq {
            RequestMissing(frame.sseq);
          }
          rSeqIncoming := (frame.sseq + 1) % 8;
          peerRequiresAck := true;
        }
      }
    }

    method CancelWait()
      modifies this
      ensures View() == Unawaited(old(View())) && line == old(line)
    {
      waitForAck := false;
      timer := Off;
    }

    method RestartFlow()
      modifies this
      ensures View() == Restarted(old(View())) && line == old(line)
    {
      if peerStoppedFlow {
        peerStoppedFlow := false;
        CancelWait();
      }
    }

    method StopFlow()
      modifies this
      ensures View() == Stopped(old(View())) && line == old(line)
    {
      if !peerStoppedFlow {
        peerStoppedFlow := true;
        peerStoppedFlowNew := true;
        peerStoppedFlowQueried := false;
      }
    }

    method PopReliable()
      requires waitQueueReliable != []
      modifies this
      ensures View() == Popped(old(View())) && line == old(line)
    {
      log := log.(popped := log.popped + [waitQueueReliable[0]]);
      waitQueueReliable := waitQueueReliable[1..];
    }

    /** The acknowledgement carried by an I or RR frame. */
    method TakeAck(rseq: uint8)
      requires Safe(View())
      modifies this
      ensures View() == AckedUpTo(old(View()), rseq) && line == old(line)
    {
      if waitForAck && rseq == (sSeqOutgoing + 1) % 8 {
        CancelWait();
        PopReliable();
      }
      sSeqOutgoing := rseq;
    }

    /** After an RNR nothing is awaited any more, whatever it acknowledges. */
    method TakeRNR(rseq: uint8)
      requires Safe(View())
      modifies this
      ensures View() == AckedByRNR(old(View()), rseq) && line == old(line)
    {
      StopFlow();
      if waitForAck {
        CancelWait();
        if rseq == (sSeqOutgoing + 1) % 8 {
          PopReliable();
        }
      }
      sSeqOutgoing := rseq;
    }

    /** Negative acknowledgements. */
    method TakeReject(frame: HdlcFrame)
      requires frame.frameType == REJ || frame.frameType == SREJ
      requires Safe(View())
      modifies this
      ensures View() == Acknowledged(old(View()), frame) && line == old(line)
    {
      RestartFlow();
      if frame.frameType == REJ {
        if frame.rseq == sSeqOutgoing {
          CancelWait();
        }
        sSeqOutgoing := (frame.rseq + 7) % 8;
      } else {
        if waitForAck && frame.rseq == sSeqOutgoing {
          CancelWait();
        }
      }
    }

    method CheckAcks(frame: HdlcFrame)
      requires Safe(View())
      modifies this
      ensures View() == Acknowledged(old(View()), frame) && line == old(line)
    {
      if frame.IsIFrame() || frame.IsSFrame() {
        if frame.IsIFrame() || frame.frameType == RR {
          if frame.frameType == RR {
            RestartFlow();
          }
          TakeAck(frame.rseq);
        } else if frame.frameType == RNR {
          TakeRNR(frame.rseq);
        } else {
          TakeReject(frame);
        }
      }
    }

    /** A frame handed over by the parser. */
    method InterpretDeserializedFrame(frame: HdlcFrame, messageInvalid: bool, script: seq<ClientAction>)
      returns (rest: seq<ClientAction>)
      requires Valid() && frame.sseq < 8 && frame.rseq < 8
      modifies this, aliveState
      ensures Valid()
      ensures Ran(View(), rest) == Receive(old(View()), frame, messageInvalid, script)
    {
      StepKeeps(View(), LinkEvent.Deliver(frame, messageInvalid), script);
      rest := script;
      if !started {
        return;
      }
      if messageInvalid {
        return;
      }
      var cameAlive := aliveState.OnFrameReceived();
      NoteInformation(frame);
      CheckAcks(frame);
      assert View() == Interpreted(old(View()), frame);
      if awaitsNextHDLCFrame {
        rest := OpportunityForTransmission(script);
      }
    }

    /** Bytes from the line: parsed, and the frames found in them interpreted in turn. */
    method AddReceivedRawBytes(bytes: seq<byte>, script: seq<ClientAction>) returns (rest: seq<ClientAction>)
      requires Valid()
      modifies this, aliveState, frameParser
      ensures Valid()
      ensures !old(started) ==> View() == old(View()) && rest == script && frameParser.View() == old(frameParser.View())
      ensures old(started) ==> frameParser.View() == Parse(old(frameParser.View()), bytes).state
      ensures old(started) ==> Ran(View(), rest) == ReceiveBytes(Ran(old(View()), script), old(frameParser.View()), bytes)
    {
      rest := script;
      if !started {
        return;
      }
      ghost var p := frameParser.View();
      var seen := |frameParser.delivered|;
      frameParser.AddReceivedRawBytes(bytes);
      assert frameParser.delivered[seen..] == Parsed(p, bytes);
      rest := InterpretAll(frameParser.delivered[seen..], script);
    }

    method InterpretAll(ds: seq<NumberedDelivery>, script: seq<ClientAction>) returns (rest: seq<ClientAction>)
      requires Valid()
      modifies this, aliveState
      ensures Valid()
      ensures Ran(View(), rest) == ReceiveAll(Ran(old(View()), script), ds)
    {
      rest := script;
      var todo := ds;
      while todo != []
        invariant Valid()
        invariant ReceiveAll(Ran(View(), rest), todo) == ReceiveAll(Ran(old(View()), script), ds)
        decreases |todo|
      {
        rest := InterpretDeserializedFrame(todo[0].frame, todo[0].invalid, rest);
        todo := todo[1..];
      }
    }

    // ---------- The other events ----------

    method TriggerNextHDLCFrame(script: seq<ClientAction>) returns (rest: seq<ClientAction>)
      requires Valid()
      modifies this
      ensures Valid()
      ensures Ran(View(), rest) == Trigger(old(View()), script)
    {
      StepKeeps(View(), TriggerNextFrame, script);
      rest := script;
      if !started {
        return;
      }
      awaitsNextHDLCFrame := true;
      rest := OpportunityForTransmission(script);
    }

    /** The handler installed with an information frame. */
    method OnRetransmitTimeout(script: seq<ClientAction>) returns (rest: seq<ClientAction>)
      requires Valid() && timer == Retransmit
      modifies this
      ensures Valid()
      ensures Ran(View(), rest) == Expire(old(View()), script)
    {
      StepKeeps(View(), TimerExpired, script);
      CancelWait();
      rest := OpportunityForTransmission(script);
    }

    /** The handler installed while the peer stopped the flow. */
    method OnPollTimeout(script: seq<ClientAction>) returns (rest: seq<ClientAction>)
      requires Valid() && timer == Poll
      modifies this
      ensures Valid()
      ensures Ran(View(), rest) == Expire(old(View()), script)
    {
      StepKeeps(View(), TimerExpired, script);
      rest := script;
      var polls := DuePoll();
      if polls {
        rest := OpportunityForTransmission(script);
      }
    }

    method DuePoll() returns (due: bool)
      modifies this
      ensures due == old(peerStoppedFlow)
      ensures View() == if due then old(View()).(timer := Off, peerRequiresAck := true, peerStoppedFlowQueried := false)
                        else old(View()).(timer := Off)
      ensures line == old(line)
    {
      timer := Off;
      due := peerStoppedFlow;
      if due {
        peerRequiresAck := true;
        peerStoppedFlowQueried := false;
      }
    }

    method OnStateTimeout()
      requires Valid() && started
      modifies aliveState
      ensures Valid()
      ensures View() == old(View()).(alive := Doubted(old(View()).alive))
    {
      StepKeeps(View(), StateTimedOut, []);
      aliveState.OnStateTimeout();
    }

    /** The callback for sending a probe. */
    method OnSendProbe(script: seq<ClientAction>) returns (rest: seq<ClientAction>)
      requires Wired()
      modifies this
      ensures Wired()
      ensures Ran(View(), rest) == Probe(old(View()), script)
    {
      sendProbe := true;
      rest := OpportunityForTransmission(script);
    }

    method OnProbeTimeout(script: seq<ClientAction>) returns (changeBaudRate: bool, rest: seq<ClientAction>)
      requires Valid() && started
      modifies this, aliveState
      ensures Valid()
      ensures Ran(View(), rest) == Links.OnProbeTimeout(old(View()), script)
      ensures changeBaudRate == ChangesRate(old(View()).alive, ProbeTimeout)
    {
      StepKeeps(View(), ProbeTimedOut, script);
      rest := script;
      var probe;
      changeBaudRate, probe := aliveState.OnProbeTimeout();
      if probe {
        rest := OnSendProbe(script);
      }
    }

    method Start(script: seq<ClientAction>) returns (rest: seq<ClientAction>)
      requires Valid()
      modifies this, aliveState, frameParser
      ensures Valid() && frameParser.View() == HUNTING
      ensures Ran(View(), rest) == Links.Start(old(View()), script)
    {
      StepKeeps(View(), StartLink, script);
      ghost var s := View();
      Reset();
      Enable();
      assert View() == Links.Reset(s).(started := true);
      rest := OnSendProbe(script);
      rest := OpportunityForTransmission(rest);
    }

    method Enable()
      requires Wired()
      modifies `started, aliveState
      ensures Wired() && View() == old(View()).(started := true, alive := ALIVE_RESET)
    {
      started := true;
      aliveState.Start();
    }

    method Stop()
      requires Valid()
      modifies this, aliveState, frameParser
      ensures Valid()
      ensures View() == Links.Stop(old(View()))
      ensures frameParser.View() == if old(started) then HUNTING else old(frameParser.View())
    {
      StepKeeps(View(), StopLink, []);
      if started {
        Reset();
      }
    }
  }
}
