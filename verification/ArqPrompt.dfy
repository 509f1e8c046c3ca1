/** Prompt continuations, and exactly when they deliver the head.

  In them the peer sends neither RNR nor SREJ, and the timer fires only if the outstanding
  frame can be sent again at once; what is already on the lines may still be anything.
 */
module ArqPrompts {
  import opened HdlcFrames
  import opened AliveStates
  import opened Links
  import opened LinkInvariants
  import opened LinkTheorems
  import opened LinkWakeups
  import opened LinkRuns
  import opened LinkTimer
  import opened Arq
  import opened ArqTheorems
  import opened ArqProgress

  // ---------- Stuck sessions ----------

  /** The timer will send the outstanding frame again. */
  predicate Watched(s: Link) {
    s.timer == Retransmit && !s.peerStoppedFlowNew
  }

  /** The frame will end the wait without acknowledging anything. */
  predicate Frees(s: Link, f: HdlcFrame) {
    f.frameType == RNR || (f.frameType == SREJ && f.rseq == s.sseq)
  }

  /** The head is awaited, but every copy of it is lost, the timer does not watch it or
      is about to be taken for polling, and nothing under way ends the wait. */
  predicate Stuck(w: World) {
    && w.link.waitForAck && !Watched(w.link) && !InFlight(w)
    && forall i :: 0 <= i < |w.up| ==> !Frees(w.link, w.up[i])
  }

  lemma {:induction false} OpportunityUnwatched(p: Link, script: seq<ClientAction>)
    requires p.waitForAck && !Watched(p)
    ensures var t := Opportunity(p, script).link; t.waitForAck && !Watched(t)
    decreases |script|, 1
  {
    if p.awaitsNextFrame && !p.sendProbe && p.alive.IsAlive() && p.srejs == []
       && (p.peerStoppedFlowNew || !p.peerRequiresAck) {
      var p' := if p.peerStoppedFlowNew then p.(peerStoppedFlowNew := false, timer := Poll) else p;
      if p'.unreliable == [] && (p'.reliable == [] || p'.peerStoppedFlow) {
        QueryUnwatched(p', script);
      }
    }
  }

  lemma {:induction false} QueryUnwatched(p: Link, script: seq<ClientAction>)
    requires p.waitForAck && !Watched(p)
    ensures var t := Query(p, script).link; t.waitForAck && !Watched(t)
    decreases |script|, 0
  {
    if script != [] && script[0].Offer? {
      var r := Send(p, script[0].payload, script[0].reliable, script[1..]);
      OfferUnwatched(p, script[0].payload, script[0].reliable, script[1..]);
      QueryUnwatched(r.link, r.script);
    }
  }

  lemma {:induction false} OfferUnwatched(p: Link, payload: Payload, reliable: bool, script: seq<ClientAction>)
    requires p.waitForAck && !Watched(p)
    ensures var t := Send(p, payload, reliable, script).link; t.waitForAck && !Watched(t)
    decreases |script|, 2
  {
    OpportunityUnwatched(Enqueued(p, payload, reliable), script);
  }

  /** The outstanding frame and its number are the same, and nothing was popped or sent. */
  predicate StillWaits(s: Link, p: Link) {
    p.waitForAck && p.sseq == s.sseq && p.log.popped == s.log.popped && p.log.sent == s.log.sent
  }

  lemma ExpiryUnwatched(s: Link)
    requires Shape(s) && s.waitForAck && !Watched(s) && Quiescent(s) && CanResend(s)
    ensures StillWaits(s, AfterExpiry(s)) && !Watched(AfterExpiry(s))
  {
  }

  lemma OthersUnwatched(s: Link)
    requires s.waitForAck && !Watched(s)
    ensures StillWaits(s, AfterTrigger(s)) && !Watched(AfterTrigger(s))
    ensures StillWaits(s, AfterProbeTimeout(s)) && !Watched(AfterProbeTimeout(s))
  {
  }

  lemma PreparedUnwatched(s: Link, e: LinkEvent)
    requires Inv(s) && s.waitForAck && !Watched(s) && Quiescent(s)
    requires Enabled(s, e) && IsLocal(e) && (e.TimerExpired? ==> CanResend(s))
    ensures StillWaits(s, Prepared(s, e)) && !Watched(Prepared(s, e))
  {
    match e
    case TimerExpired => ExpiryUnwatched(s);
    case SendPayload(_, _) =>
    case Deliver(_, _) =>
    case StateTimedOut =>
    case _ => OthersUnwatched(s);
  }

  /** A transmit opportunity cannot free a stuck session. */
  lemma StuckShips(w: World, p: Link, script: seq<ClientAction>)
    requires Stuck(w) && StillWaits(w.link, p) && !Watched(p)
    ensures var t := Opportunity(p, script).link;
      Stuck(Shipped(w, t)) && t.log.popped == w.link.log.popped
  {
    OpportunityUnwatched(p, script);
    OpportunityDisciplined(p, script);
  }

  lemma StuckLocal(w: World, e: LinkEvent, script: seq<ClientAction>)
    requires Running(w) && Stuck(w) && Quiescent(w.link)
    requires Possible(w, Local(e, script)) && Prompt(w, Local(e, script))
    ensures var v := Happen(w, Local(e, script)); Stuck(v) && v.link.log.popped == w.link.log.popped
  {
    var p := Prepared(w.link, e);
    PreparedUnwatched(w.link, e);
    StuckShips(w, p, script);
    assert OnTheLine(w.link, p) == [] && w.down + [] == w.down;
  }

  lemma FrameKeepsWait(s: Link, f: HdlcFrame)
    requires Inv(s) && s.waitForAck && f.sseq < 8 && f.frameType != REJ
    requires !EndsWait(s, f) && (IsAck(f) ==> f.rseq == s.sseq)
    ensures StillWaits(s, Interpreted(s, f)) && WaitsOn(s, Interpreted(s, f))
  {
    FrameWaits(s, f);
    InterpretedMoves(s, f);
  }

  lemma StuckReceives(w: World, script: seq<ClientAction>)
    requires Running(w) && Stuck(w) && w.up != []
    ensures var v := Happen(w, LinkReceives(script)); Stuck(v) && v.link.log.popped == w.link.log.popped
  {
    var f := w.up[0];
    FrameKeepsWait(w.link, f);
    var u := w.(up := w.up[1..]);
    assert forall i :: 0 <= i < |u.up| ==> u.up[i] == w.up[i + 1];
    StuckShips(u, Interpreted(w.link, f), script);
  }

  lemma StuckTakes(w: World)
    requires Good(w) && Stuck(w) && w.down != []
    ensures Stuck(Happen(w, PeerReceives))
  {
    var v := Happen(w, PeerReceives);
    assert forall i :: 0 <= i < |v.down| ==> v.down[i] == w.down[i + 1];
    assert w.down[0].IsIFrame() ==> w.down[0].sseq != w.peer.expected;
  }

  lemma StuckLoses(w: World, i: nat)
    requires Good(w) && Stuck(w)
    ensures i < |w.down| ==> Stuck(Happen(w, LoseDown(i)))
    ensures i < |w.up| ==> Stuck(Happen(w, LoseUp(i)))
  {
    if i < |w.down| {
      WithoutAt(w.down, i);
    }
    if i < |w.up| {
      WithoutAt(w.up, i);
    }
  }

  lemma StuckStep(w: World, a: Act)
    requires Running(w) && Stuck(w) && Quiescent(w.link) && Possible(w, a) && Prompt(w, a)
    ensures var v := Happen(w, a); Stuck(v) && v.link.log.popped == w.link.log.popped
  {
    match a
    case Local(e, script) => StuckLocal(w, e, script);
    case PeerReceives => StuckTakes(w);
    case PeerSends(_) =>
    case LinkReceives(script) => StuckReceives(w, script);
    case LoseDown(i) => StuckLoses(w, i);
    case LoseUp(i) => StuckLoses(w, i);
  }

  lemma HappenQuiesces(w: World, a: Act)
    requires Good(w) && Quiescent(w.link) && Possible(w, a)
    ensures Quiescent(Happen(w, a).link)
  {
    match a
    case Local(e, script) => StepQuiesces(w.link, e, script);
    case LinkReceives(script) => StepQuiesces(w.link, Deliver(w.up[0], false), script);
    case _ =>
  }

  /** Prompt acts never free a stuck session, whatever clients do and the line loses. */
  lemma {:induction false} StuckPersists(w: World, acts: seq<Act>)
    requires Running(w) && Stuck(w) && Quiescent(w.link) && AllPrompt(w, acts)
    ensures var v := Play(w, acts); Stuck(v) && v.link.log.popped == w.link.log.popped
    decreases |acts|
  {
    if acts != [] {
      var a := acts[0];
      if Possible(w, a) {
        StuckStep(w, a);
        HappenQuiesces(w, a);
        StaysStarted(w, a);
        HappenKeeps(w, a);
        StuckPersists(Happen(w, a), acts[1..]);
      } else {
        StuckPersists(w, acts[1..]);
      }
    }
  }

  // ---------- Reading what is on the lines ----------

  lemma OpportunityWatched(p: Link)
    requires p.waitForAck && Watched(p) && !p.peerStoppedFlow
    ensures var t := Opportunity(p, []).link; t.waitForAck && Watched(t)
  {
  }

  /** Where nothing is awaited, a frame that is then awaited is under way. */
  lemma FreeStaysLively(w: World, p: Link)
    requires !p.waitForAck && p.log.sent == w.link.log.sent && p.sseq < 8
    ensures !Stuck(Shipped(w, Opportunity(p, []).link))
  {
    OpportunityDisciplined(p, []);
    var t := Opportunity(p, []).link;
    var v := Shipped(w, t);
    if t.waitForAck {
      assert v.down[|w.down|].IsIFrame() && v.down[|w.down|].sseq == t.sseq;
    }
  }

  lemma AckedNotAwaited(s: Link, r: uint8)
    requires !s.waitForAck
    ensures !Restarted(s).waitForAck && !AckedUpTo(s, r).waitForAck && !AckedByRNR(s, r).waitForAck
  {
  }

  lemma RejectedNotAwaited(s: Link, r: uint8)
    requires !s.waitForAck
    ensures !RejectedFrom(s, r).waitForAck && !RequestedAgain(s, r).waitForAck
  {
    AckedNotAwaited(s, r);
  }

  lemma AcknowledgedNotAwaited(s: Link, f: HdlcFrame)
    requires !s.waitForAck
    ensures !Acknowledged(s, f).waitForAck
  {
    AckedNotAwaited(s, f.rseq);
    match f.frameType {
      case RR => AckedNotAwaited(Restarted(s), f.rseq);
      case REJ => RejectedNotAwaited(s, f.rseq);
      case SREJ => RejectedNotAwaited(s, f.rseq);
      case _ =>
    }
  }

  lemma NotAwaited(s: Link, f: HdlcFrame)
    requires Shape(s) && f.sseq < 8 && !s.waitForAck
    ensures !Interpreted(s, f).waitForAck
  {
    NotedWaits(s, f);
    AcknowledgedNotAwaited(Noted(s.(alive := Heard(s.alive)), f), f);
  }

  /** A frame that does not end the wait leaves everything that matters to it. */
  lemma AwaitedKept(w: World)
    requires Good(w) && w.up != [] && w.link.waitForAck && !EndsWait(w.link, w.up[0])
    ensures var s, p := w.link, Interpreted(w.link, w.up[0]);
      StillWaits(s, p) && WaitsOn(s, p) && !Frees(s, w.up[0])
  {
    assert IsAck(w.up[0]) ==> w.up[0].rseq == w.link.sseq;
    FrameKeepsWait(w.link, w.up[0]);
  }

  /** Copies of the head that are under way stay so, and what will free the link is now nearer. */
  lemma StaysInFlight(w: World, v: World)
    requires w.up != [] && v.link.sseq == w.link.sseq && v.peer == w.peer
    requires w.down <= v.down && v.up == w.up[1..] && !Frees(w.link, w.up[0])
    ensures InFlight(w) ==> InFlight(v)
    ensures forall i :: 0 <= i < |w.up| && Frees(w.link, w.up[i]) ==> i > 0 && Frees(v.link, v.up[i - 1])
  {
    if i :| 0 <= i < |w.down| && w.down[i].IsIFrame() && w.down[i].sseq == w.link.sseq {
      assert v.down[i] == w.down[i];
    }
  }

  lemma AwaitedStaysLively(w: World)
    requires Running(w) && w.up != [] && w.link.waitForAck && !EndsWait(w.link, w.up[0]) && !Stuck(w)
    ensures !Stuck(Happen(w, LinkReceives([])))
  {
    var p := Interpreted(w.link, w.up[0]);
    AwaitedKept(w);
    OpportunityDisciplined(p, []);
    StaysInFlight(w, Happen(w, LinkReceives([])));
    if Watched(w.link) {
      OpportunityWatched(p);
    }
  }

  lemma Freed(s: Link, f: HdlcFrame)
    requires Inv(s) && f.sseq < 8 && f.rseq < 8 && f.frameType != REJ && (s.waitForAck ==> EndsWait(s, f))
    ensures var p := Interpreted(s, f); !p.waitForAck && p.log.sent == s.log.sent && p.sseq < 8
  {
    if s.waitForAck {
      FrameWaits(s, f);
    } else {
      NotAwaited(s, f);
    }
    InterpretedMoves(s, f);
  }

  /** The first frame has been read, but not interpreted. */
  function Read(w: World): World
    requires w.up != []
  {
    w.(up := w.up[1..], orphans := Counting(w, w.up[0]))
  }

  lemma ReceivedIs(w: World)
    requires Running(w) && w.up != []
    ensures Happen(w, LinkReceives([])) == Shipped(Read(w), Opportunity(Interpreted(w.link, w.up[0]), []).link)
  {
  }

  lemma FreedStaysLively(w: World)
    requires Running(w) && w.up != [] && (w.link.waitForAck ==> EndsWait(w.link, w.up[0]))
    ensures !Stuck(Happen(w, LinkReceives([])))
  {
    var f := w.up[0];
    Freed(w.link, f);
    FreeStaysLively(Read(w), Interpreted(w.link, f));
    ReceivedIs(w);
  }

  lemma LivelyReceives(w: World)
    requires Running(w) && w.up != [] && !Stuck(w)
    ensures !Stuck(Happen(w, LinkReceives([])))
  {
    if w.link.waitForAck && !EndsWait(w.link, w.up[0]) {
      AwaitedStaysLively(w);
    } else {
      FreedStaysLively(w);
    }
  }

  lemma LivelyTakes(w: World)
    requires Good(w) && w.down != [] && !Stuck(w)
    ensures !Stuck(Happen(w, PeerReceives))
  {
    var v := Happen(w, PeerReceives);
    if InFlight(w) && !Ahead(w) && !Ahead(v) {
      var i :| 0 <= i < |w.down| && w.down[i].IsIFrame() && w.down[i].sseq == w.link.sseq;
      assert i > 0 && v.down[i - 1] == w.down[i];
    }
  }

  lemma {:induction false} LivelyReads(w: World, acts: seq<Act>)
    requires Running(w) && Reading(acts) && !Stuck(w)
    ensures !Stuck(Play(w, acts))
    decreases |acts|
  {
    if acts != [] {
      var a := acts[0];
      assert Reading(acts[1..]) by {
        assert forall i :: 0 <= i < |acts[1..]| ==> acts[1..][i] == acts[i + 1];
      }
      if Possible(w, a) {
        if a == PeerReceives {
          LivelyTakes(w);
        } else {
          LivelyReceives(w);
        }
        StaysStarted(w, a);
        HappenKeeps(w, a);
        LivelyReads(Happen(w, a), acts[1..]);
      } else {
        LivelyReads(w, acts[1..]);
      }
    }
  }

  lemma ReadAll(w: World) returns (acts: seq<Act>, v: World)
    requires Running(w)
    ensures Way(w, acts, v) && v.up == [] && v.down == []
    ensures !Stuck(w) ==> !Stuck(v)
  {
    var a, x := DrainUp(w);
    var b;
    b, v := DrainDown(x);
    acts := a + b;
    WayOn(w, a, x, b, v);
    if !Stuck(w) {
      LivelyReads(w, a);
      LivelyReads(x, b);
    }
  }

  // ---------- The timer sends the head again ----------

  predicate Guarded(s: Link) {
    Inv(s) && s.started && s.waitForAck && Watched(s)
  }

  /** How many frames a live link would send before it waits for something. */
  function Urgent(s: Link): nat {
    (if s.sendProbe then 1 else 0) + |s.srejs| + (if s.peerRequiresAck then 1 else 0) + |s.unreliable|
  }

  lemma HeardGuarded(s: Link)
    requires Guarded(s)
    ensures var t := Receive(s, UA_FRAME, false, []).link; Guarded(t) && t.alive.IsAlive()
  {
    StepKeeps(s, Deliver(UA_FRAME, false), []);
    assert Step(s, Deliver(UA_FRAME, false), []) == Receive(s, UA_FRAME, false, []);
    var p := Interpreted(s, UA_FRAME);
    FrameWaits(s, UA_FRAME);
    OpportunityWatched(p);
    OpportunityDisciplined(p, []);
  }

  lemma FreeOrLess(p: Link)
    requires p.waitForAck && Watched(p) && !p.peerStoppedFlow && p.awaitsNextFrame && p.alive.IsAlive()
    ensures var t := Opportunity(p, []).link; if t.awaitsNextFrame then CanResend(t) else Urgent(t) < Urgent(p)
  {
    if !p.sendProbe && p.srejs == [] && !p.peerRequiresAck && p.unreliable == [] {
      assert Query(p, []) == Ran(p, []);
    }
  }

  lemma TriggerGuarded(s: Link)
    requires Guarded(s) && s.alive.IsAlive()
    ensures var t := Trigger(s, []).link;
      && Guarded(t) && t.alive == s.alive && t.log.enqueued == s.log.enqueued && t.log.popped == s.log.popped
      && (if t.awaitsNextFrame then CanResend(t) else Urgent(t) < Urgent(s))
  {
    var p := s.(awaitsNextFrame := true);
    TriggerKeeps(s, []);
    FreeOrLess(p);
    OpportunityWatched(p);
    NothingEnqueued(p);
    OpportunityDisciplined(p, []);
  }

  lemma {:induction false} Flush(w: World) returns (acts: seq<Act>, v: World)
    requires Running(w) && w.up == [] && Guarded(w.link) && w.link.alive.IsAlive()
    ensures Way(w, acts, v) && v.up == [] && v.down == [] && Guarded(v.link) && CanResend(v.link)
    decreases Urgent(w.link)
  {
    var a := Local(TriggerNextFrame, []);
    TriggerGuarded(w.link);
    RoadOne(w, a);
    var u := Happen(w, a);
    var b, x := DrainDown(u);
    acts, v := [a] + b, x;
    WayOn(w, [a], u, b, x);
    if !u.link.awaitsNextFrame {
      var c;
      c, v := Flush(x);
      WayOn(w, acts, x, c, v);
      acts := acts + c;
    }
  }

  lemma ResentAtOnce(s: Link)
    requires Guarded(s) && CanResend(s)
    ensures var t := Expire(s, []).link;
      && OnTheLine(s, t) == [IFrame(s.sseq, s.rseq, s.reliable[0])] && t.sseq == s.sseq && t.waitForAck
      && t.log.enqueued == s.log.enqueued && t.log.popped == s.log.popped
  {
    ShippedHead(Unawaited(s));
  }

  /** The timer expires, the head is sent again, and the peer accepts it. */
  lemma Resend(w: World) returns (acts: seq<Act>, v: World)
    requires Running(w) && w.up == [] && w.down == [] && Guarded(w.link) && CanResend(w.link) && !Ahead(w)
    ensures Way(w, acts, v) && v.up == [] && Ahead(v) && v.link.waitForAck
  {
    var a := Local(TimerExpired, []);
    ResentAtOnce(w.link);
    RoadOne(w, a);
    var u := Happen(w, a);
    assert u.down == [IFrame(w.link.sseq, w.link.rseq, w.link.reliable[0])];
    v := TakeOne(u);
    acts := [a] + [PeerReceives];
    WayOn(w, [a], u, [PeerReceives], v);
  }

  lemma DeliverGuarded(w: World) returns (acts: seq<Act>, v: World)
    requires Running(w) && w.up == [] && Guarded(w.link)
    ensures Way(w, acts, v) && |v.link.log.popped| > |w.link.log.popped|
  {
    var a, x := Exchange(w, UA_FRAME);
    HeardGuarded(w.link);
    var b, y := Flush(x);
    WayOn(w, a, x, b, y);
    acts, v := a + b, y;
    if !Ahead(y) {
      var c;
      c, v := Resend(y);
      WayOn(w, acts, y, c, v);
      acts := acts + c;
    }
    var d, z := Acknowledge(v);
    WayOn(w, acts, v, d, z);
    acts, v := acts + d, z;
  }

  // ---------- The exact condition ----------

  /** Unless the session is stuck, prompt acts deliver the head. */
  lemma PromptDelivery(w: World) returns (acts: seq<Act>, v: World)
    requires Running(w) && !Stuck(w) && w.link.reliable != []
    ensures Way(w, acts, v) && w.link.log.popped + [w.link.reliable[0]] <= v.link.log.popped
  {
    acts, v := ReadAll(w);
    LaterPops(w, v);
    if |v.link.log.popped| == |w.link.log.popped| {
      var b, u;
      if !v.link.waitForAck {
        b, u := DeliverFree(v);
      } else if Ahead(v) {
        b, u := Acknowledge(v);
      } else {
        b, u := DeliverGuarded(v);
      }
      WayOn(w, acts, v, b, u);
      acts, v := acts + b, u;
    }
    LaterPops(w, v);
  }

  ghost predicate PromptlyDeliverable(w: World)
    requires Good(w) && w.link.reliable != []
  {
    exists acts :: AllGentle(acts) && AllPrompt(w, acts)
                   && w.link.log.popped + [w.link.reliable[0]] <= Play(w, acts).link.log.popped
  }

  lemma PromptlyDeliverableIff(w: World)
    requires Running(w) && Quiescent(w.link) && w.link.reliable != []
    ensures PromptlyDeliverable(w) <==> !Stuck(w)
  {
    if Stuck(w) {
      forall acts | AllPrompt(w, acts) ensures Play(w, acts).link.log.popped == w.link.log.popped {
        StuckPersists(w, acts);
      }
    } else {
      var acts, v := PromptDelivery(w);
    }
  }

  lemma {:induction false} PlayQuiesces(w: World, acts: seq<Act>)
    requires Good(w) && Quiescent(w.link)
    ensures Quiescent(Play(w, acts).link)
    decreases |acts|
  {
    if acts != [] {
      if Possible(w, acts[0]) {
        HappenQuiesces(w, acts[0]);
        HappenKeeps(w, acts[0]);
        PlayQuiesces(Happen(w, acts[0]), acts[1..]);
      } else {
        PlayQuiesces(w, acts[1..]);
      }
    }
  }

  /** However a session went, and whatever was lost in it: a prompt continuation without
      losses delivers the head if and only if the session is not stuck. */
  lemma SessionsProgressPromptlyIff(s: Link, script: seq<ClientAction>, acts: seq<Act>)
    ensures var w := Play(Opening(s, script), acts);
      w.link.reliable != [] ==> (PromptlyDeliverable(w) <==> !Stuck(w))
  {
    var w := Play(Opening(s, script), acts);
    OpeningStarted(s, script);
    PlayStarted(Opening(s, script), acts);
    StartQuiesces(Fresh(s), script);
    PlayQuiesces(Opening(s, script), acts);
    if w.link.reliable != [] {
      PromptlyDeliverableIff(w);
    }
  }

  // ---------- A stuck session ----------

  // The flow stops and starts again while the slot is taken, the head is sent before
  // the link has noticed, and is lost.
  function StickingActs(expected: uint8, first: Payload, payload: Payload): seq<Act>
    requires expected < 8
  {
    [Local(SendPayload(first, false), []),
     PeerSends(RNRFrame(expected)),
     LinkReceives([]),
     PeerSends(RRFrame(expected)),
     LinkReceives([]),
     Local(SendPayload(payload, true), []),
     Local(TriggerNextFrame, []),
     LoseDown(1)]
  }

  predicate Occupied(s: Link) {
    && s.started && !s.awaitsNextFrame && s.alive == Heard(s.alive) && !s.sendProbe && s.srejs == []
    && s.reliable == [] && !s.waitForAck
  }

  lemma FirstOccupies(s: Link, first: Payload)
    requires Shape(s) && IdleSession(World(s, Peer(s.sseq, []), [], [], 0))
    ensures var t := Send(s, first, false, []).link;
      && Occupied(t) && FlowFree(t) && t.sseq == s.sseq
      && |OnTheLine(s, t)| == 1 && !OnTheLine(s, t)[0].IsIFrame()
  {
  }

  lemma StopNoted(s: Link)
    requires Shape(s) && Occupied(s) && FlowFree(s)
    ensures Receive(s, RNRFrame(s.sseq), false, []).link == Stopped(s)
  {
  }

  lemma RestartUnnoticed(s: Link)
    requires Shape(s) && Occupied(s) && s.peerStoppedFlow
    ensures Receive(s, RRFrame(s.sseq), false, []).link == Unawaited(s.(peerStoppedFlow := false))
  {
  }

  /** The link after both, with the flag for the stop still set. */
  function StopPending(s: Link): Link {
    Unawaited(Stopped(s).(peerStoppedFlow := false))
  }

  lemma StopPends(s: Link)
    requires Shape(s) && Occupied(s) && FlowFree(s)
    ensures Occupied(Stopped(s)) && Stopped(s).sseq == s.sseq && Occupied(StopPending(s))
    ensures var t := StopPending(s);
      !t.peerStoppedFlow && t.peerStoppedFlowNew && t.sseq == s.sseq && t.log.sent == s.log.sent
  {
  }

  lemma FirstTakesSlot(w: World, first: Payload, rest: seq<Act>) returns (t: Link, f: HdlcFrame)
    requires Good(w) && IdleSession(w)
    ensures Occupied(t) && FlowFree(t) && t.sseq == w.peer.expected && !f.IsIFrame()
    ensures var v := w.(link := t, down := [f]);
      Good(v) && Play(w, [Local(SendPayload(first, false), [])] + rest) == Play(v, rest)
  {
    t := Send(w.link, first, false, []).link;
    FirstOccupies(w.link, first);
    f := OnTheLine(w.link, t)[0];
    assert OnTheLine(w.link, t) == [f];
    HappenLocally(w, SendPayload(first, false), t, [f]);
    PlayStep(w, Local(SendPayload(first, false), []), rest, w.(link := t, down := [f]));
  }

  lemma FlowFlickers(w: World, rest: seq<Act>)
    requires Good(w) && w.up == [] && Occupied(w.link) && FlowFree(w.link) && !Ahead(w)
    ensures var v := w.(link := StopPending(w.link)); var e := w.peer.expected;
      Good(v) && Play(w, [PeerSends(RNRFrame(e))] + ([LinkReceives([])] + ([PeerSends(RRFrame(e))] + ([LinkReceives([])] + rest))))
              == Play(v, rest)
  {
    var s, e := w.link, w.peer.expected;
    StopPends(s);
    StopNoted(s);
    PeerTells(w, RNRFrame(e), Stopped(s), [PeerSends(RRFrame(e))] + ([LinkReceives([])] + rest));
    RestartUnnoticed(Stopped(s));
    PeerTells(w.(link := Stopped(s)), RRFrame(e), StopPending(s), rest);
  }

  lemma EnqueuesOnly(s: Link, payload: Payload)
    requires Occupied(s)
    ensures Send(s, payload, true, []).link == Enqueued(s, payload, true)
    ensures var t := Enqueued(s, payload, true);
      t.reliable == [payload] && t.peerStoppedFlow == s.peerStoppedFlow && t.log.sent == s.log.sent
  {
  }

  lemma HeadSentOut(w: World, payload: Payload, f: HdlcFrame, t: Link, rest: seq<Act>)
    requires Good(w) && w.down == [f]
    requires Occupied(w.link) && !w.link.peerStoppedFlow
    requires t == SentReliable(Enqueued(w.link, payload, true).(awaitsNextFrame := true))
    ensures var v := w.(link := t, down := [f] + [IFrame(w.link.sseq, w.link.rseq, payload)]);
      Good(v) && Play(w, [Local(SendPayload(payload, true), [])] + ([Local(TriggerNextFrame, [])] + rest)) == Play(v, rest)
  {
    var s := Enqueued(w.link, payload, true);
    EnqueuesOnly(w.link, payload);
    assert w.down + [] == w.down;
    HappenLocally(w, SendPayload(payload, true), s, []);
    var w1 := w.(link := s);
    PlayStep(w, Local(SendPayload(payload, true), []), [Local(TriggerNextFrame, [])] + rest, w1);
    var g := IFrame(s.sseq, s.rseq, payload);
    DuplicateResent(s);
    ShippedHead(s.(awaitsNextFrame := true));
    HappenLocally(w1, TriggerNextFrame, t, [g]);
    PlayStep(w1, Local(TriggerNextFrame, []), rest, w.(link := t, down := [f] + [g]));
  }

  lemma SentUnwatched(s: Link, payload: Payload)
    requires Occupied(s) && s.peerStoppedFlowNew
    ensures var t := SentReliable(Enqueued(s, payload, true).(awaitsNextFrame := true));
      t.waitForAck && !Watched(t) && t.reliable == [payload] && t.sseq == s.sseq
  {
  }

  lemma LoseSecond(w: World, f: HdlcFrame, g: HdlcFrame)
    requires w.down == [f] + [g]
    ensures Leads(w, LoseDown(1), w.(down := [f]))
  {
    assert Without([f] + [g], 1) == [f];
  }

  lemma LostIsStuck(w: World, f: HdlcFrame)
    requires w.up == [] && w.down == [f] && !f.IsIFrame() && !Ahead(w) && w.link.waitForAck && !Watched(w.link)
    ensures Stuck(w)
  {
  }

  lemma HeadLost(w: World, payload: Payload, f: HdlcFrame)
    requires Good(w) && w.up == [] && w.down == [f] && !f.IsIFrame() && !Ahead(w)
    requires Occupied(w.link) && !w.link.peerStoppedFlow && w.link.peerStoppedFlowNew
    ensures var v := Play(w, [Local(SendPayload(payload, true), [])] + ([Local(TriggerNextFrame, [])] + ([LoseDown(1)] + [])));
      Stuck(v) && v.link.reliable == [payload]
  {
    var t := SentReliable(Enqueued(w.link, payload, true).(awaitsNextFrame := true));
    var g := IFrame(w.link.sseq, w.link.rseq, payload);
    var u, v := w.(link := t, down := [f] + [g]), w.(link := t);
    HeadSentOut(w, payload, f, t, [LoseDown(1)] + []);
    LoseSecond(u, f, g);
    PlayStep(u, LoseDown(1), [], v);
    SentUnwatched(w.link, payload);
    LostIsStuck(v, f);
  }

  lemma StickingSplit(e: uint8, first: Payload, payload: Payload)
    requires e < 8
    ensures StickingActs(e, first, payload)
         == [Local(SendPayload(first, false), [])] + ([PeerSends(RNRFrame(e))] + ([LinkReceives([])]
          + ([PeerSends(RRFrame(e))] + ([LinkReceives([])]
          + ([Local(SendPayload(payload, true), [])] + ([Local(TriggerNextFrame, [])] + ([LoseDown(1)] + [])))))))
  {
  }

  /** Every idle point of every session can be followed by a stuck one. */
  lemma StuckReachable(w: World, first: Payload, payload: Payload)
    requires Good(w) && IdleSession(w)
    ensures var v := Play(w, StickingActs(w.peer.expected, first, payload));
      Stuck(v) && v.link.reliable == [payload]
  {
    var e := w.peer.expected;
    var last := [Local(SendPayload(payload, true), [])] + ([Local(TriggerNextFrame, [])] + ([LoseDown(1)] + []));
    StickingSplit(e, first, payload);
    var t, f := FirstTakesSlot(w, first, [PeerSends(RNRFrame(e))] + ([LinkReceives([])]
                                       + ([PeerSends(RRFrame(e))] + ([LinkReceives([])] + last))));
    var v := w.(link := t, down := [f]);
    FlowFlickers(v, last);
    StopPends(t);
    HeadLost(v.(link := StopPending(t)), payload, f);
  }

  // ---------- Sessions that were prompt all along ----------

  /** A session in good order that is running. */
  predicate Alert(w: World) {
    Exact(w) && w.link.started && Coupled(w.link) && Quiescent(w.link)
  }

  lemma LinkStaysAlert(s: Link, e: LinkEvent, script: seq<ClientAction>)
    requires Inv(s) && Enabled(s, e) && Coupled(s) && Quiescent(s) && FlowFree(s) && !IsRnr(e)
    ensures var t := Step(s, e, script).link; Coupled(t) && Quiescent(t)
  {
    StepFlowFree(s, e, script);
    StepCoupling(s, e, script);
    StepQuiesces(s, e, script);
  }

  lemma StaysAlert(w: World, a: Act)
    requires Alert(w) && Possible(w, a) && Prompt(w, a)
    ensures Alert(Happen(w, a))
  {
    HappenExact(w, a);
    StaysStarted(w, a);
    match a
    case Local(e, script) => LinkStaysAlert(w.link, e, script);
    case LinkReceives(script) => LinkStaysAlert(w.link, LinkEvent.Deliver(w.up[0], false), script);
    case _ =>
  }

  lemma StartOrderly(s: Link, script: seq<ClientAction>)
    ensures Coupled(Start(Fresh(s), script).link) && Quiescent(Start(Fresh(s), script).link)
  {
    StartCoupled(Fresh(s), script);
    StartQuiesces(Fresh(s), script);
  }

  lemma OpeningAlert(s: Link, script: seq<ClientAction>)
    ensures Alert(Opening(s, script))
  {
    StartOrderly(s, script);
    OpeningStarted(s, script);
    OpeningExact(s, script);
  }

  lemma {:induction false} PromptStaysAlert(w: World, acts: seq<Act>)
    requires Alert(w) && AllPrompt(w, acts)
    ensures Alert(Play(w, acts))
    decreases |acts|
  {
    if acts != [] {
      if Possible(w, acts[0]) {
        HappenKeeps(w, acts[0]);
        StaysAlert(w, acts[0]);
        PromptStaysAlert(Happen(w, acts[0]), acts[1..]);
      } else {
        PromptStaysAlert(w, acts[1..]);
      }
    }
  }

  /** They are never stuck: they can go on promptly. */
  lemma PromptSessionsNeverStick(s: Link, script: seq<ClientAction>, acts: seq<Act>)
    ensures AllPrompt(Opening(s, script), acts) ==>
      var w := Play(Opening(s, script), acts);
      !Stuck(w) && (w.link.reliable != [] ==> PromptlyDeliverable(w))
  {
    if AllPrompt(Opening(s, script), acts) {
      OpeningAlert(s, script);
      PromptStaysAlert(Opening(s, script), acts);
      SessionsProgressPromptlyIff(s, script, acts);
    }
  }
}
