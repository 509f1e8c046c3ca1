/** What the frames handed over say, and which one goes first. */
module LinkFrames {
  import opened HdlcFrames
  import opened FrameGenerator
  import opened AliveStates
  import opened Links
  import opened LinkInvariants
  import opened LinkTheorems

  /** An acknowledgement of received frames is due, and is not held back. */
  predicate ReportsNow(p: Link) {
    p.peerRequiresAck && !p.peerStoppedFlowNew
  }

  /** The frame that is right in this state: its address and numbers, and that nothing
      more urgent was passed over. */
  predicate Says(p: Link, f: Printable) {
    && f.address == 0x30
    && (f.frameType == TEST || p.alive.IsAlive())
    && match f.frameType
       case TEST => f == HdlcFrame(0x30, TEST, false, 0, 0, []) && p.sendProbe
       case SREJ => !p.sendProbe && p.srejs != [] && f == HdlcFrame(0x30, SREJ, false, p.srejs[0], 0, [])
       case I =>
         && !p.sendProbe && p.srejs == [] && !p.waitForAck && !p.peerStoppedFlow
         && !f.pf && f.sseq == p.sseq && f.rseq == p.rseq
       case RR =>
         && !p.sendProbe && p.srejs == [] && !MaySendReliable(p) && p.peerRequiresAck
         && f == HdlcFrame(0x30, RR, p.peerStoppedFlow && !p.peerStoppedFlowQueried, p.rseq, 0, [])
       case UI =>
         && !p.sendProbe && p.srejs == [] && !MaySendReliable(p) && !ReportsNow(p)
         && !f.pf && f.rseq == 0 && f.sseq == 0
       case _ => false
  }

  predicate IsReport(f: Printable) {
    f.frameType == I || f.frameType == RR
  }

  /** What the frame settles: an I-frame and an RR report, the RR perhaps polls, and the
      probe is no longer pending. */
  predicate Settles(p: Link, f: Printable, t: Link) {
    && (t.sendProbe <==> p.sendProbe && f.frameType != TEST)
    && (t.peerRequiresAck <==> p.peerRequiresAck && !IsReport(f))
    && (t.peerStoppedFlowQueried <==> p.peerStoppedFlowQueried || f.pf)
    && (f.pf ==> t.timer == Poll)
  }

  /** Nothing of what frames are made from has changed. */
  predicate SameTalk(p: Link, t: Link) {
    && t.sseq == p.sseq && t.rseq == p.rseq && t.alive == p.alive && t.sendProbe == p.sendProbe && t.srejs == p.srejs
    && t.waitForAck == p.waitForAck && t.peerStoppedFlow == p.peerStoppedFlow
    && t.peerStoppedFlowQueried == p.peerStoppedFlowQueried && t.peerRequiresAck == p.peerRequiresAck
    && p.reliable <= t.reliable
  }

  /** Nothing was handed over, or one frame, into a slot that is now taken. */
  predicate Spoken(p: Link, t: Link) {
    && (p.peerStoppedFlowNew || !t.peerStoppedFlowNew)
    && if t.log.sent == p.log.sent then
         SameTalk(p, t) && t.awaitsNextFrame == p.awaitsNextFrame && (t.timer == p.timer || t.timer == Poll)
       else
         && p.awaitsNextFrame && !t.awaitsNextFrame
         && |t.log.sent| == |p.log.sent| + 1 && t.log.sent[..|p.log.sent|] == p.log.sent
         && var f := t.log.sent[|p.log.sent|];
            Says(p, f) && Settles(p, f, t)
  }

  lemma SpokenBusy(p: Link, t: Link)
    requires Spoken(p, t) && !p.awaitsNextFrame
    ensures t.log.sent == p.log.sent && SameTalk(p, t) && (t.timer == p.timer || t.timer == Poll)
  {
  }

  lemma SaysAlike(p: Link, t: Link, f: Printable)
    requires SameTalk(p, t) && !p.peerStoppedFlowNew && !t.peerStoppedFlowNew && Says(t, f)
    ensures Says(p, f)
  {
  }

  lemma SpokenOn(p: Link, t: Link, u: Link)
    requires Spoken(p, t) && Spoken(t, u) && !p.peerStoppedFlowNew
    ensures Spoken(p, u)
  {
    if t.log.sent != p.log.sent {
      SpokenBusy(t, u);
    } else if u.log.sent != t.log.sent {
      SaysAlike(p, t, u.log.sent[|t.log.sent|]);
    }
  }

  lemma EnqueuedSpoken(p: Link, payload: Payload, reliable: bool)
    ensures Spoken(p, Enqueued(p, payload, reliable))
  {
  }

  lemma ProbeSpoken(p: Link)
    requires p.awaitsNextFrame && p.sendProbe
    ensures Spoken(p, Transmit(p.(sendProbe := false), TEST_FRAME))
  {
  }

  lemma RequestSpoken(p: Link)
    requires p.awaitsNextFrame && !p.sendProbe && p.alive.IsAlive() && p.srejs != []
    ensures Spoken(p, Transmit(Requested(p), SFrame(SREJ, false, p.srejs[0])))
  {
  }

  lemma ReliableSpoken(p: Link)
    requires p.awaitsNextFrame && !p.sendProbe && p.alive.IsAlive() && p.srejs == [] && MaySendReliable(p)
    ensures Spoken(p, SentReliable(p))
  {
  }

  lemma RRSpoken(p: Link)
    requires p.awaitsNextFrame && !p.sendProbe && p.alive.IsAlive() && p.srejs == [] && !MaySendReliable(p)
    requires p.peerRequiresAck
    ensures Spoken(p, SentRR(p))
  {
  }

  /** The link once a fresh RNR condition, if there is one, has been noticed. */
  function Noticed(p: Link): Link {
    if p.peerStoppedFlowNew then p.(peerStoppedFlowNew := false, timer := Poll) else p
  }

  lemma UnreliableSpoken(p: Link)
    requires p.awaitsNextFrame && !p.sendProbe && p.alive.IsAlive() && p.srejs == [] && !MaySendReliable(p)
    requires !ReportsNow(p) && p.unreliable != []
    ensures Spoken(p, SentUnreliable(Noticed(p)))
  {
  }

  /** A fresh RNR condition has been noticed, and a due RR passed over. */
  lemma NoticedSpoken(p: Link, t: Link)
    requires p.peerStoppedFlowNew && p.awaitsNextFrame && Spoken(Noticed(p), t)
    ensures Spoken(p, t)
  {
    if t.log.sent != p.log.sent {
      assert Says(Noticed(p), t.log.sent[|p.log.sent|]);
    }
  }

  /** Every transmit opportunity, through any re-entry. */
  lemma {:induction false} OpportunitySpeaks(p: Link, script: seq<ClientAction>)
    ensures Spoken(p, Opportunity(p, script).link)
    decreases |script|, 2
  {
    if !p.awaitsNextFrame || (!p.sendProbe && !p.alive.IsAlive()) {
    } else if p.sendProbe {
      ProbeSpoken(p);
    } else if p.srejs != [] {
      RequestSpoken(p);
    } else if MaySendReliable(p) {
      ReliableSpoken(p);
    } else if ReportsNow(p) {
      RRSpoken(p);
    } else {
      RestSpeaks(p, script);
    }
  }

  /** What is left to do where no report is due, or it is passed over. */
  lemma {:induction false} RestSpeaks(p: Link, script: seq<ClientAction>)
    requires p.awaitsNextFrame && !p.sendProbe && p.alive.IsAlive() && p.srejs == [] && !MaySendReliable(p) && !ReportsNow(p)
    ensures Spoken(p, Opportunity(p, script).link)
    decreases |script|, 1
  {
    if p.unreliable != [] {
      UnreliableSpoken(p);
    } else if p.reliable == [] || p.peerStoppedFlow {
      QuerySpeaks(Noticed(p), script);
      if p.peerStoppedFlowNew {
        NoticedSpoken(p, Query(Noticed(p), script).link);
      }
    }
  }

  lemma {:induction false} QuerySpeaks(p: Link, script: seq<ClientAction>)
    requires !p.peerStoppedFlowNew
    ensures Spoken(p, Query(p, script).link)
    decreases |script|, 0
  {
    if script != [] && script[0].Offer? {
      var r := Send(p, script[0].payload, script[0].reliable, script[1..]);
      OfferSpeaks(p, script[0].payload, script[0].reliable, script[1..]);
      QuerySpeaks(r.link, r.script);
      SpokenOn(p, r.link, Query(r.link, r.script).link);
    }
  }

  lemma {:induction false} OfferSpeaks(p: Link, payload: Payload, reliable: bool, script: seq<ClientAction>)
    requires !p.peerStoppedFlowNew
    ensures Spoken(p, Send(p, payload, reliable, script).link)
    decreases |script|, 3
  {
    var p' := Enqueued(p, payload, reliable);
    EnqueuedSpoken(p, payload, reliable);
    OpportunitySpeaks(p', script);
    SpokenOn(p, p', Opportunity(p', script).link);
  }

  lemma StartSpeaks(s: Link, script: seq<ClientAction>)
    ensures Spoken(Reset(s).(started := true, sendProbe := true), Start(s, script).link)
  {
    var p := Reset(s).(started := true, sendProbe := true);
    OpportunitySpeaks(p, script);
    var r := Opportunity(p, script);
    OpportunitySpeaks(r.link, r.script);
    SpokenOn(p, r.link, Start(s, script).link);
  }

  lemma QuietSpoken(p: Link)
    ensures Spoken(p, p)
  {
  }

  /** Every event: what it prepares is what the frame of the event says. */
  lemma StepSpeaks(s: Link, e: LinkEvent, script: seq<ClientAction>)
    requires Inv(s) && Enabled(s, e)
    ensures Spoken(Prepared(s, e), Step(s, e, script).link)
  {
    QuietSpoken(Prepared(s, e));
    if e.StartLink? {
      StartSpeaks(s, script);
    } else {
      OpportunitySpeaks(Prepared(s, e), script);
    }
  }

  // ---------- Probes ----------

  /** On a running link that is not sure of its device a probe timeout sends a probe, or
      leaves it pending until the slot is free; otherwise it sends nothing. */
  lemma ProbeTimeoutProbes(s: Link, script: seq<ClientAction>)
    requires s.started
    ensures var t := OnProbeTimeout(s, script).link;
      if s.alive.phase == Found then t.log.sent == s.log.sent && t.sendProbe == s.sendProbe
      else if s.awaitsNextFrame then
        t.log.sent == s.log.sent + [HdlcFrame(0x30, TEST, false, 0, 0, [])] && !t.awaitsNextFrame && !t.sendProbe
      else t.log.sent == s.log.sent && t.sendProbe
  {
  }

  // ---------- Starting ----------

  /** A start forgets everything but the queues, and sends the first probe. */
  lemma StartsAfresh(s: Link, script: seq<ClientAction>)
    ensures var t := Start(s, script).link;
      && t.started && !t.awaitsNextFrame && t.sseq == 0 && t.rseq == 0
      && !t.sendProbe && !t.peerStoppedFlow && !t.peerStoppedFlowNew && !t.peerStoppedFlowQueried
      && !t.peerRequiresAck && !t.waitForAck && t.srejs == [] && t.timer == Off
      && t.alive == Alive(Probing, false, 0)
      && t.reliable == s.reliable && t.unreliable == s.unreliable
      && t.log.sent == s.log.sent + [HdlcFrame(0x30, TEST, false, 0, 0, [])]
      && t.log.popped == s.log.popped && t.log.enqueued == s.log.enqueued
  {
  }

  /** A stop forgets the same, and sends nothing. */
  lemma StopForgets(s: Link)
    requires s.started
    ensures var t := Stop(s);
      && !t.started && t.awaitsNextFrame && t.sseq == 0 && t.rseq == 0
      && !t.sendProbe && !t.peerStoppedFlow && !t.peerStoppedFlowNew && !t.peerStoppedFlowQueried
      && !t.peerRequiresAck && !t.waitForAck && t.srejs == [] && t.timer == Off
      && t.alive == Alive(Probing, false, 0)
      && t.reliable == s.reliable && t.unreliable == s.unreliable && t.log.sent == s.log.sent
  {
  }
}
