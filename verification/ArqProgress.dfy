/** Progress: every running session can go on, whatever happened in it.

  From every point of it some loss-free continuation takes the head off the queue, and
  indeed the whole queue.  It may need the peer to stop and restart the flow, which ends
  any wait; module ArqPrompts says exactly when it does not.
 */
module ArqProgress {
  import opened HdlcFrames
  import opened AliveStates
  import opened Links
  import opened LinkInvariants
  import opened Stutters
  import opened LinkTheorems
  import opened Arq
  import opened ArqTheorems

  // ---------- Continuations ----------

  /** Nothing is lost, and no client takes part. */
  predicate Gentle(a: Act) {
    match a
    case Local(e, script) => script == [] && !e.SendPayload?
    case LinkReceives(script) => script == []
    case LoseDown(_) => false
    case LoseUp(_) => false
    case _ => true
  }

  predicate AllGentle(acts: seq<Act>) {
    forall i :: 0 <= i < |acts| ==> Gentle(acts[i])
  }

  /** The clients added nothing, and what was popped stays popped. */
  predicate Later(w: World, v: World) {
    v.link.log.enqueued == w.link.log.enqueued && w.link.log.popped <= v.link.log.popped
  }

  predicate Running(w: World) {
    Good(w) && w.link.started
  }

  /** v is reached from w by loss-free acts. */
  predicate Road(w: World, acts: seq<Act>, v: World) {
    Running(w) && AllGentle(acts) && v == Play(w, acts) && Running(v) && Later(w, v)
  }

  /** And by prompt ones. */
  predicate Way(w: World, acts: seq<Act>, v: World) {
    Road(w, acts, v) && AllPrompt(w, acts)
  }

  lemma RoadOn(w: World, a: seq<Act>, v: World, b: seq<Act>, u: World)
    requires Road(w, a, v) && Road(v, b, u)
    ensures Road(w, a + b, u)
  {
    PlayOn(w, a, b);
  }

  lemma WayOn(w: World, a: seq<Act>, v: World, b: seq<Act>, u: World)
    requires Way(w, a, v) && Way(v, b, u)
    ensures Way(w, a + b, u)
  {
    PlayOn(w, a, b);
  }

  lemma {:induction false} PlayOn(w: World, a: seq<Act>, b: seq<Act>)
    requires Good(w)
    ensures Play(w, a + b) == Play(Play(w, a), b)
    ensures AllPrompt(w, a + b) <==> AllPrompt(w, a) && AllPrompt(Play(w, a), b)
    decreases |a|
  {
    if a == [] {
      assert a + b == b;
    } else {
      assert (a + b)[0] == a[0] && (a + b)[1..] == a[1..] + b;
      if Possible(w, a[0]) {
        HappenKeeps(w, a[0]);
        PlayOn(Happen(w, a[0]), a[1..], b);
      } else {
        PlayOn(w, a[1..], b);
      }
    }
  }

  lemma OthersStarted(s: Link)
    ensures AfterTrigger(s).started == s.started && AfterProbeTimeout(s).started == s.started
  {
  }

  lemma ExpiryStarted(s: Link)
    ensures AfterExpiry(s).started == s.started
  {
    assert Unawaited(s).started == s.started;
  }

  lemma PreparedStarted(s: Link, e: LinkEvent)
    requires Inv(s) && Enabled(s, e) && !e.StartLink? && !e.StopLink?
    ensures Prepared(s, e).started == s.started
  {
    match e
    case SendPayload(_, _) =>
    case Deliver(_, _) =>
    case TimerExpired => ExpiryStarted(s);
    case StateTimedOut =>
    case _ => OthersStarted(s);
  }

  lemma StepStarted(s: Link, e: LinkEvent, script: seq<ClientAction>)
    requires Inv(s) && Enabled(s, e) && !e.StartLink? && !e.StopLink?
    ensures Step(s, e, script).link.started == s.started
  {
    PreparedStarted(s, e);
    StepDisciplined(s, e, script);
  }

  /** No act of a session starts or stops the link. */
  lemma StaysStarted(w: World, a: Act)
    requires Good(w) && Possible(w, a)
    ensures Happen(w, a).link.started == w.link.started
  {
    match a
    case Local(e, script) => StepStarted(w.link, e, script);
    case LinkReceives(script) => StepStarted(w.link, Deliver(w.up[0], false), script);
    case _ =>
  }

  /** One act of a continuation. */
  lemma RoadOne(w: World, a: Act)
    requires Running(w) && Possible(w, a) && Gentle(a) && Later(w, Happen(w, a))
    ensures Road(w, [a], Happen(w, a))
    ensures Prompt(w, a) ==> Way(w, [a], Happen(w, a))
  {
    StaysStarted(w, a);
    HappenKeeps(w, a);
    assert [a][1..] == [];
    assert Play(Happen(w, a), []) == Happen(w, a) && AllPrompt(Happen(w, a), []);
  }

  lemma Stay(w: World)
    requires Running(w)
    ensures Way(w, [], w)
  {
  }

  lemma NothingEnqueued(s: Link)
    ensures Opportunity(s, []).link.log.enqueued == s.log.enqueued
  {
    if s.awaitsNextFrame && !s.sendProbe && s.alive.IsAlive() {
      if s.srejs == [] && !MaySendReliable(s) && (s.peerStoppedFlowNew || !s.peerRequiresAck) {
        var s' := if s.peerStoppedFlowNew then s.(peerStoppedFlowNew := false, timer := Poll) else s;
        assert Query(s', []) == Ran(s', []);
      } else if s.srejs == [] && MaySendReliable(s) {
        assert SentReliable(s).log.enqueued == s.log.enqueued;
      }
    }
  }

  lemma InterpretedLater(s: Link, f: HdlcFrame)
    requires Inv(s) && f.sseq < 8 && f.frameType != REJ
    ensures Interpreted(s, f).log.enqueued == s.log.enqueued && s.log.popped <= Interpreted(s, f).log.popped
  {
    InterpretedMoves(s, f);
  }

  lemma ReceivedLater(w: World)
    requires Running(w) && w.up != []
    ensures Later(w, Happen(w, LinkReceives([])))
  {
    var f := w.up[0];
    InterpretedLater(w.link, f);
    NothingEnqueued(Interpreted(w.link, f));
    OpportunityDisciplined(Interpreted(w.link, f), []);
  }

  lemma LaterPops(w: World, v: World)
    requires Good(w) && Good(v) && Later(w, v)
    ensures |v.link.log.popped| == |w.link.log.popped| ==> v.link.reliable == w.link.reliable
    ensures |v.link.log.popped| > |w.link.log.popped| && w.link.reliable != [] ==>
              w.link.log.popped + [w.link.reliable[0]] <= v.link.log.popped
  {
    var p, q := w.link.log.popped, v.link.log.popped;
    assert p + w.link.reliable == q + v.link.reliable;
    if |q| > |p| && w.link.reliable != [] {
      assert (p + w.link.reliable)[|p|] == (q + v.link.reliable)[|p|];
    }
    if |q| == |p| {
      assert w.link.reliable == (p + w.link.reliable)[|p|..] && v.link.reliable == (q + v.link.reliable)[|p|..];
    }
  }

  // ---------- Emptying the lines ----------

  predicate Reading(acts: seq<Act>) {
    forall i :: 0 <= i < |acts| ==> acts[i] == LinkReceives([]) || acts[i] == PeerReceives
  }

  lemma ReadMore(a: Act, acts: seq<Act>)
    requires Reading([a]) && Reading(acts)
    ensures Reading([a] + acts)
  {
    assert [a][0] == a;
  }

  lemma ReceiveOne(w: World) returns (v: World)
    requires Running(w) && w.up != []
    ensures Way(w, [LinkReceives([])], v) && |v.up| < |w.up|
  {
    v := Happen(w, LinkReceives([]));
    ReceivedLater(w);
    RoadOne(w, LinkReceives([]));
  }

  lemma {:induction false} DrainUp(w: World) returns (acts: seq<Act>, v: World)
    requires Running(w)
    ensures Way(w, acts, v) && v.up == [] && Reading(acts)
    decreases |w.up|
  {
    if w.up == [] {
      Stay(w);
      acts, v := [], w;
    } else {
      var x := ReceiveOne(w);
      var rest;
      rest, v := DrainUp(x);
      acts := [LinkReceives([])] + rest;
      ReadMore(LinkReceives([]), rest);
      WayOn(w, [LinkReceives([])], x, rest, v);
    }
  }

  lemma TakeOne(w: World) returns (v: World)
    requires Running(w) && w.down != []
    ensures Way(w, [PeerReceives], v) && v.link == w.link && v.up == w.up && |v.down| < |w.down|
  {
    v := Happen(w, PeerReceives);
    RoadOne(w, PeerReceives);
  }

  lemma {:induction false} DrainDown(w: World) returns (acts: seq<Act>, v: World)
    requires Running(w)
    ensures Way(w, acts, v) && v.down == [] && v.link == w.link && v.up == w.up && Reading(acts)
    decreases |w.down|
  {
    if w.down == [] {
      Stay(w);
      acts, v := [], w;
    } else {
      var x := TakeOne(w);
      var rest;
      rest, v := DrainDown(x);
      acts := [PeerReceives] + rest;
      ReadMore(PeerReceives, rest);
      WayOn(w, [PeerReceives], x, rest, v);
    }
  }

  /** The peer sends a frame, and the link takes it. */
  lemma Exchange(w: World, f: HdlcFrame) returns (acts: seq<Act>, v: World)
    requires Running(w) && w.up == [] && MaySend(w.peer, f)
    ensures Road(w, acts, v) && v.up == [] && v.peer == w.peer
    ensures v.link == Receive(w.link, f, false, []).link && v.down == w.down + OnTheLine(w.link, v.link)
    ensures f.frameType != RNR && f.frameType != SREJ ==> Way(w, acts, v)
  {
    RoadOne(w, PeerSends(f));
    var u := Happen(w, PeerSends(f));
    ReceivedLater(u);
    RoadOne(u, LinkReceives([]));
    acts, v := [PeerSends(f)] + [LinkReceives([])], Happen(u, LinkReceives([]));
    RoadOn(w, [PeerSends(f)], u, [LinkReceives([])], v);
    if f.frameType != RNR && f.frameType != SREJ {
      WayOn(w, [PeerSends(f)], u, [LinkReceives([])], v);
    }
  }

  // ---------- Sending the head ----------

  /** What a live link sends before the head. */
  function Pending(s: Link): nat {
    (if s.sendProbe then 1 else 0) + |s.srejs|
  }

  predicate MayFollow(s: Link) {
    s.alive.IsAlive() && !s.waitForAck && !s.peerStoppedFlow && s.reliable != []
  }

  lemma Emits(p: Link)
    requires Shape(p) && MayFollow(p)
    ensures var t := Opportunity(p, []).link;
      && t.started == p.started && t.alive == p.alive && !t.peerStoppedFlow && t.sseq == p.sseq
      && t.reliable == p.reliable && t.log.popped == p.log.popped && t.log.enqueued == p.log.enqueued
      && |OnTheLine(p, t)| <= 1
      && (if t.waitForAck then OnTheLine(p, t) == [IFrame(p.sseq, p.rseq, p.reliable[0])]
          else (OnTheLine(p, t) != [] ==> !OnTheLine(p, t)[0].IsIFrame()) && (p.awaitsNextFrame ==> Pending(t) < Pending(p)))
  {
    if p.awaitsNextFrame && !p.sendProbe && p.srejs == [] {
      ShippedHead(p);
    }
  }

  /** The head is on its way to the peer, or nothing hinders it but other frames. */
  predicate Tried(w: World) {
    && Running(w) && w.up == [] && w.link.alive.IsAlive() && !w.link.peerStoppedFlow && w.link.reliable != [] && !Ahead(w)
    && |w.down| <= 1
    && (if w.link.waitForAck then w.down != [] && w.down[0].IsIFrame() && w.down[0].sseq == w.link.sseq
        else w.down != [] ==> !w.down[0].IsIFrame())
  }

  /** The same with empty lines: the head has been accepted, or may be sent. */
  predicate Ready(w: World) {
    && Running(w) && w.up == [] && w.down == []
    && w.link.alive.IsAlive() && !w.link.peerStoppedFlow && w.link.reliable != []
    && (w.link.waitForAck <==> Ahead(w))
  }

  lemma Land(w: World) returns (acts: seq<Act>, v: World)
    requires Tried(w)
    ensures Way(w, acts, v) && Ready(v) && v.link == w.link
  {
    if w.down == [] {
      acts, v := [], w;
    } else {
      RoadOne(w, PeerReceives);
      acts, v := [PeerReceives], Happen(w, PeerReceives);
    }
  }

  lemma RRFrees(s: Link, r: uint8)
    requires Inv(s) && s.started && !s.waitForAck && s.reliable != [] && r < 8
    ensures var q := Interpreted(s, RRFrame(r));
      && Shape(q) && MayFollow(q) && q.sseq == r
      && q.reliable == s.reliable && q.log.popped == s.log.popped && q.log.sent == s.log.sent
  {
  }

  /** An RR lets the flow go on. */
  lemma Restart(w: World) returns (acts: seq<Act>, v: World)
    requires Running(w) && w.up == [] && w.down == [] && !w.link.waitForAck && w.link.reliable != []
    ensures Way(w, acts, v) && Ready(v)
  {
    var f := RRFrame(w.peer.expected);
    var a, u := Exchange(w, f);
    RRFrees(w.link, w.peer.expected);
    Emits(Interpreted(w.link, f));
    assert Tried(u);
    var b;
    b, v := Land(u);
    acts := a + b;
    WayOn(w, a, u, b, v);
  }

  lemma TriggerEmits(w: World) returns (a: Act, u: World)
    requires Ready(w) && !w.link.waitForAck
    ensures Way(w, [a], u) && Tried(u)
    ensures !u.link.waitForAck ==> Pending(u.link) < Pending(w.link)
  {
    a := Local(TriggerNextFrame, []);
    u := Happen(w, a);
    Emits(w.link.(awaitsNextFrame := true));
    RoadOne(w, a);
  }

  /** The driver frees the slot again and again, until the head was sent and accepted. */
  lemma {:induction false} Emit(w: World) returns (acts: seq<Act>, v: World)
    requires Ready(w)
    ensures Way(w, acts, v) && Ready(v) && Ahead(v)
    decreases if w.link.waitForAck then 0 else 1, Pending(w.link)
  {
    if w.link.waitForAck {
      acts, v := [], w;
    } else {
      var a, u := TriggerEmits(w);
      var b, x := Land(u);
      WayOn(w, [a], u, b, x);
      var c;
      c, v := Emit(x);
      WayOn(w, [a] + b, x, c, v);
      acts := [a] + b + c;
    }
  }

  lemma AckPops(s: Link, f: HdlcFrame)
    requires Inv(s) && s.started && f.frameType == RR && f.sseq < 8 && AcksHead(s, f.rseq)
    ensures |Receive(s, f, false, []).link.log.popped| > |s.log.popped|
  {
    InterpretedMoves(s, f);
    OpportunityDisciplined(Interpreted(s, f), []);
  }

  lemma Acknowledge(w: World) returns (acts: seq<Act>, v: World)
    requires Running(w) && w.up == [] && Ahead(w) && w.link.waitForAck
    ensures Way(w, acts, v) && |v.link.log.popped| > |w.link.log.popped|
  {
    var f := RRFrame(w.peer.expected);
    assert AcksHead(w.link, w.peer.expected) && MaySend(w.peer, f);
    acts, v := Exchange(w, f);
    AckPops(w.link, f);
  }

  /** Unless a frame is awaited, acts of the peer and the driver suffice, all prompt. */
  lemma DeliverFree(w: World) returns (acts: seq<Act>, v: World)
    requires Running(w) && w.up == [] && w.down == [] && !w.link.waitForAck && w.link.reliable != []
    ensures Way(w, acts, v) && |v.link.log.popped| > |w.link.log.popped|
  {
    var a, x := Restart(w);
    var b, y := Emit(x);
    WayOn(w, a, x, b, y);
    var c;
    c, v := Acknowledge(y);
    WayOn(w, a + b, y, c, v);
    acts := a + b + c;
  }

  // ---------- The theorems ----------

  lemma StoppedUnawaited(s: Link, r: uint8)
    requires Shape(s)
    ensures var q := AckedByRNR(s, r); !q.waitForAck && q.peerStoppedFlow
  {
  }

  lemma StopEndsWait(s: Link, r: uint8)
    requires Inv(s) && s.started && r < 8
    ensures !Receive(s, RNRFrame(r), false, []).link.waitForAck
  {
    var q := Interpreted(s, RNRFrame(r));
    var heard := s.(alive := Heard(s.alive));
    assert Noted(heard, RNRFrame(r)) == heard;
    StoppedUnawaited(heard, r);
    OpportunityDisciplined(q, []);
  }

  /** Nothing is awaited and nothing under way: an RNR brings any session there. */
  lemma EndWait(w: World) returns (acts: seq<Act>, v: World)
    requires Running(w)
    ensures Road(w, acts, v) && v.up == [] && v.down == [] && !v.link.waitForAck
  {
    var a, x := DrainUp(w);
    var f := RNRFrame(x.peer.expected);
    var b, y := Exchange(x, f);
    StopEndsWait(x.link, x.peer.expected);
    RoadOn(w, a, x, b, y);
    var c;
    c, v := DrainDown(y);
    RoadOn(w, a + b, y, c, v);
    acts := a + b + c;
  }

  /** From every state of a running session the head can still be delivered. */
  lemma HeadCanBeDelivered(w: World) returns (acts: seq<Act>, v: World)
    requires Running(w) && w.link.reliable != []
    ensures Road(w, acts, v) && w.link.log.popped + [w.link.reliable[0]] <= v.link.log.popped
  {
    acts, v := EndWait(w);
    LaterPops(w, v);
    if |v.link.log.popped| == |w.link.log.popped| {
      var b, u := DeliverFree(v);
      RoadOn(w, acts, v, b, u);
      acts, v := acts + b, u;
    }
    LaterPops(w, v);
  }

  /** And so can everything on the queue. */
  lemma {:induction false} QueueCanBeDelivered(w: World) returns (acts: seq<Act>, v: World)
    requires Running(w)
    ensures Road(w, acts, v) && v.link.reliable == [] && v.link.log.popped == w.link.log.enqueued
    decreases |w.link.reliable|
  {
    if w.link.reliable == [] {
      acts, v := [], w;
    } else {
      var a, x := HeadCanBeDelivered(w);
      assert |x.link.log.popped| + |x.link.reliable| == |w.link.log.popped| + |w.link.reliable|;
      var b;
      b, v := QueueCanBeDelivered(x);
      acts := a + b;
      RoadOn(w, a, x, b, v);
    }
  }

  lemma OpeningStarted(s: Link, script: seq<ClientAction>)
    ensures Opening(s, script).link.started
  {
    StartDisciplined(Fresh(s), script);
  }

  lemma {:induction false} PlayStarted(w: World, acts: seq<Act>)
    requires Good(w)
    ensures Play(w, acts).link.started == w.link.started
    decreases |acts|
  {
    if acts != [] {
      if Possible(w, acts[0]) {
        StaysStarted(w, acts[0]);
        HappenKeeps(w, acts[0]);
        PlayStarted(Happen(w, acts[0]), acts[1..]);
      } else {
        PlayStarted(w, acts[1..]);
      }
    }
  }

  /** However a session went, and whatever was lost or stopped in it: some continuation
      without losses takes everything off the queue, and the peer has accepted it all. */
  lemma SessionsCanProgress(s: Link, script: seq<ClientAction>, acts: seq<Act>) returns (more: seq<Act>)
    ensures var w := Play(Opening(s, script), acts); var v := Play(w, more);
      && AllGentle(more) && v.link.reliable == []
      && v.link.log.popped == HandedOver(s, script, acts) && Stutter(v.peer.accepted, HandedOver(s, script, acts))
  {
    SessionAccepts(s, script, acts);
    var w := Play(Opening(s, script), acts);
    OpeningStarted(s, script);
    PlayStarted(Opening(s, script), acts);
    var v;
    more, v := QueueCanBeDelivered(w);
  }
}
