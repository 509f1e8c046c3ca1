/** The stop-and-wait link entity as a value, and its reaction to every event.

  Clients may hand over further payload from inside the entity's own query for
  payload, which re-enters it.  What they do there is given by a script: offers,
  each of which may cause another, nested query, and the end of the innermost query.
  An exhausted script means that no client has anything to send.
 */
module Links {
  import opened Fcs16
  import opened HdlcFrames
  import opened FrameGenerator
  import opened AliveStates

  type Payload = seq<byte>

  datatype ClientAction = Offer(payload: Payload, reliable: bool) | EndOfQuery

  /** What the shared timer is armed for. */
  datatype Timer = Off | Retransmit | Poll

  /** What happened so far, for stating properties only. */
  datatype Log = Log(
    sent: seq<Printable>,         // handed over for transmission
    popped: seq<Payload>,         // reliable payloads taken off their queue
    enqueued: seq<Payload>,       // reliable payloads ever accepted from clients
    enqueuedUnreliable: seq<Payload>,
    gap: seq<uint8>,              // the latest list of frames to request again
    requested: seq<uint8>,        // the part of it that was requested
    requestedBefore: seq<uint8>)  // everything requested before that list was made

  const NO_LOG := Log([], [], [], [], [], [], [])

  /** A new list of frames to request replaces whatever was left of the old one. */
  function NewGap(log: Log, gap: seq<uint8>): Log {
    log.(gap := gap, requested := [], requestedBefore := log.requestedBefore + log.requested)
  }

  datatype Link = Link(
    started: bool,
    awaitsNextFrame: bool,        // the transmit slot is free
    sseq: uint8,
    rseq: uint8,
    sendProbe: bool,
    peerStoppedFlow: bool,
    peerStoppedFlowNew: bool,
    peerStoppedFlowQueried: bool,
    peerRequiresAck: bool,
    waitForAck: bool,
    srejs: seq<uint8>,
    reliable: seq<Payload>,
    unreliable: seq<Payload>,
    alive: Alive,
    timer: Timer,
    log: Log)

  const LINK_ADDRESS: byte := 0x30

  function IFrame(sseq: uint8, rseq: uint8, payload: Payload): Printable {
    HdlcFrame(LINK_ADDRESS, I, false, rseq, sseq, payload)
  }

  function SFrame(t: FrameType, pf: bool, rseq: uint8): Printable
    requires t.IsS()
  {
    HdlcFrame(LINK_ADDRESS, t, pf, rseq, 0, [])
  }

  function UIFrame(payload: Payload): Printable {
    HdlcFrame(LINK_ADDRESS, UI, false, 0, 0, payload)
  }

  const TEST_FRAME: Printable := HdlcFrame(LINK_ADDRESS, TEST, false, 0, 0, [])

  function Transmit(s: Link, f: Printable): Link {
    s.(awaitsNextFrame := false, log := s.log.(sent := s.log.sent + [f]))
  }

  // ---------- Choosing the next frame ----------

  datatype Ran = Ran(link: Link, script: seq<ClientAction>)

  predicate MaySendReliable(s: Link) {
    s.reliable != [] && !s.waitForAck && !s.peerStoppedFlow
  }

  function Requested(s: Link): Link
    requires s.srejs != []
  {
    s.(srejs := s.srejs[1..], log := s.log.(requested := s.log.requested + [s.srejs[0]]))
  }

  function SentReliable(s: Link): Link
    requires s.reliable != []
  {
    Transmit(s.(waitForAck := true, peerRequiresAck := false, timer := Retransmit),
             IFrame(s.sseq, s.rseq, s.reliable[0]))
  }

  /** An RR; while the peer stopped the flow it doubles as a poll. */
  function SentRR(s: Link): Link {
    var poll := s.peerStoppedFlow && !s.peerStoppedFlowQueried;
    var s' := s.(peerRequiresAck := false,
                 peerStoppedFlowQueried := s.peerStoppedFlowQueried || poll,
                 timer := if poll then Poll else s.timer);
    Transmit(s', SFrame(RR, poll, s.rseq))
  }

  function SentUnreliable(s: Link): Link
    requires s.unreliable != []
  {
    Transmit(s.(unreliable := s.unreliable[1..]), UIFrame(s.unreliable[0]))
  }

  /** The transmit opportunity: at most one frame, by priority. */
  function Opportunity(s: Link, script: seq<ClientAction>): (r: Ran)
    ensures |r.script| <= |script|
    decreases |script|, 1
  {
    if !s.awaitsNextFrame then Ran(s, script)
    else if s.sendProbe then Ran(Transmit(s.(sendProbe := false), TEST_FRAME), script)
    else if !s.alive.IsAlive() then Ran(s, script)
    else if s.srejs != [] then Ran(Transmit(Requested(s), SFrame(SREJ, false, s.srejs[0])), script)
    else if MaySendReliable(s) then Ran(SentReliable(s), script)
    else if !s.peerStoppedFlowNew && s.peerRequiresAck then Ran(SentRR(s), script)
    else
      var s' := if s.peerStoppedFlowNew then s.(peerStoppedFlowNew := false, timer := Poll) else s;
      if s'.unreliable != [] then Ran(SentUnreliable(s'), script)
      else if s'.reliable == [] || s'.peerStoppedFlow then Query(s', script)
      else Ran(s', script)
  }

  /** The clients' part of a query for payload. */
  function Query(s: Link, script: seq<ClientAction>): (r: Ran)
    ensures |r.script| <= |script|
    decreases |script|, 0
  {
    if script == [] then Ran(s, [])
    else if script[0].EndOfQuery? then Ran(s, script[1..])
    else
      var r := Send(s, script[0].payload, script[0].reliable, script[1..]);
      Query(r.link, r.script)
  }

  function Enqueued(s: Link, payload: Payload, reliable: bool): Link {
    if reliable then
      s.(reliable := s.reliable + [payload], log := s.log.(enqueued := s.log.enqueued + [payload]))
    else
      s.(unreliable := s.unreliable + [payload],
         log := s.log.(enqueuedUnreliable := s.log.enqueuedUnreliable + [payload]))
  }

  function Send(s: Link, payload: Payload, reliable: bool, script: seq<ClientAction>): (r: Ran)
    ensures |r.script| <= |script|
    decreases |script|, 2
  {
    Opportunity(Enqueued(s, payload, reliable), script)
  }

  // ---------- Frames from the peer ----------

  /** The frames missing when s arrives instead of r, not reduced modulo 8. */
  function GapList(r: uint8, s: uint8): seq<uint8>
    requires r < 8 && s < 8
  {
    seq((s + 8 - r) % 8, i requires 0 <= i < 8 => r + i)
  }

  /** What a received frame does not touch. */
  predicate Untouched(s: Link, t: Link) {
    && t.started == s.started && t.awaitsNextFrame == s.awaitsNextFrame
    && t.sendProbe == s.sendProbe && t.alive == s.alive
    && t.unreliable == s.unreliable
    && t.log.sent == s.log.sent
    && t.log.enqueued == s.log.enqueued && t.log.enqueuedUnreliable == s.log.enqueuedUnreliable
  }

  /** An information frame with payload: what to request and what to expect next. */
  function Noted(s: Link, f: HdlcFrame): (t: Link)
    requires s.rseq < 8 && f.sseq < 8
    ensures Untouched(s, t)
    ensures t.sseq == s.sseq && t.waitForAck == s.waitForAck && t.peerStoppedFlow == s.peerStoppedFlow
    ensures t.reliable == s.reliable && t.log.popped == s.log.popped
  {
    if f.HasPayload() && f.IsIFrame() then
      var s' :=
        if s.rseq != f.sseq then
          var gap := GapList(s.rseq, f.sseq);
          s.(srejs := gap, log := NewGap(s.log, gap))
        else s;
      s'.(rseq := (f.sseq + 1) % 8, peerRequiresAck := true)
    else s
  }

  function Popped(s: Link): (t: Link)
    requires s.reliable != []
    ensures Untouched(s, t)
  {
    s.(reliable := s.reliable[1..], log := s.log.(popped := s.log.popped + [s.reliable[0]]))
  }

  function Unawaited(s: Link): (t: Link)
    ensures Untouched(s, t)
  {
    s.(waitForAck := false, timer := Off)
  }

  /** The peer accepts frames again. */
  function Restarted(s: Link): (t: Link)
    ensures Untouched(s, t)
  {
    if s.peerStoppedFlow then Unawaited(s.(peerStoppedFlow := false)) else s
  }

  function Stopped(s: Link): (t: Link)
    ensures Untouched(s, t)
  {
    if s.peerStoppedFlow then s
    else s.(peerStoppedFlow := true, peerStoppedFlowNew := true, peerStoppedFlowQueried := false)
  }

  /** An outstanding frame has its payload on the queue. */
  predicate Safe(s: Link) {
    s.waitForAck ==> s.reliable != []
  }

  predicate AcksHead(s: Link, r: uint8) {
    s.waitForAck && r == (s.sseq + 1) % 8
  }

  /** N(R) of an I or RR frame; only a single frame is ever outstanding. */
  function AckedUpTo(s: Link, r: uint8): (t: Link)
    requires Safe(s)
    ensures Untouched(s, t)
  {
    (if AcksHead(s, r) then Popped(Unawaited(s)) else s).(sseq := r)
  }

  function AckedByRNR(s: Link, r: uint8): (t: Link)
    requires Safe(s)
    ensures Untouched(s, t)
  {
    var s' := Stopped(s);
    (if AcksHead(s', r) then Popped(Unawaited(s'))
     else if s'.waitForAck then Unawaited(s') else s').(sseq := r)
  }

  function RejectedFrom(s: Link, r: uint8): (t: Link)
    ensures Untouched(s, t)
  {
    var s' := Restarted(s);
    (if r == s'.sseq then Unawaited(s') else s').(sseq := (r + 7) % 8)
  }

  function RequestedAgain(s: Link, r: uint8): (t: Link)
    ensures Untouched(s, t)
  {
    var s' := Restarted(s);
    if s'.waitForAck && r == s'.sseq then Unawaited(s') else s'
  }

  function Acknowledged(s: Link, f: HdlcFrame): (t: Link)
    requires Safe(s)
    ensures Untouched(s, t)
  {
    match f.frameType
    case I => AckedUpTo(s, f.rseq)
    case RR => AckedUpTo(Restarted(s), f.rseq)
    case RNR => AckedByRNR(s, f.rseq)
    case REJ => RejectedFrom(s, f.rseq)
    case SREJ => RequestedAgain(s, f.rseq)
    case _ => s
  }

  lemma UntouchedTransitive(s: Link, t: Link, u: Link)
    requires Untouched(s, t) && Untouched(t, u)
    ensures Untouched(s, u)
  {
  }

  /** The state just before the transmit opportunity that ends the handling of a frame. */
  function Interpreted(s: Link, f: HdlcFrame): (t: Link)
    requires Safe(s) && s.rseq < 8 && f.sseq < 8
    ensures Untouched(s.(alive := Heard(s.alive)), t)
  {
    var heard := s.(alive := Heard(s.alive));
    var noted := Noted(heard, f);
    UntouchedTransitive(heard, noted, Acknowledged(noted, f));
    Acknowledged(noted, f)
  }

  function Receive(s: Link, f: HdlcFrame, invalid: bool, script: seq<ClientAction>): (r: Ran)
    requires Safe(s) && s.rseq < 8 && f.sseq < 8
    ensures |r.script| <= |script|
  {
    if !s.started || invalid then Ran(s, script) else Opportunity(Interpreted(s, f), script)
  }

  // ---------- The other events ----------

  /** Everything but the two wait queues. */
  function Reset(s: Link): Link {
    Link(
      started := false, awaitsNextFrame := true, sseq := 0, rseq := 0,
      sendProbe := false, peerStoppedFlow := false, peerStoppedFlowNew := false, peerStoppedFlowQueried := false,
      peerRequiresAck := false, waitForAck := false, srejs := [],
      reliable := s.reliable, unreliable := s.unreliable,
      alive := ALIVE_RESET, timer := Off, log := NewGap(s.log, []))
  }

  const NEW_LINK: Link :=
    Link(false, true, 0, 0, false, false, false, false, false, false, [], [], [], ALIVE_RESET, Off, NO_LOG)

  function Probe(s: Link, script: seq<ClientAction>): (r: Ran)
    ensures |r.script| <= |script|
  {
    Opportunity(s.(sendProbe := true), script)
  }

  function Start(s: Link, script: seq<ClientAction>): Ran {
    var r := Probe(Reset(s).(started := true), script);
    Opportunity(r.link, r.script)
  }

  function Stop(s: Link): Link {
    if s.started then Reset(s) else s
  }

  function Trigger(s: Link, script: seq<ClientAction>): Ran {
    if s.started then Opportunity(s.(awaitsNextFrame := true), script) else Ran(s, script)
  }

  function Expire(s: Link, script: seq<ClientAction>): Ran {
    match s.timer
    case Off => Ran(s, script)
    case Retransmit => Opportunity(Unawaited(s), script)
    case Poll =>
      if s.peerStoppedFlow
      then Opportunity(s.(timer := Off, peerRequiresAck := true, peerStoppedFlowQueried := false), script)
      else Ran(s.(timer := Off), script)
  }

  function OnProbeTimeout(s: Link, script: seq<ClientAction>): Ran {
    var s' := s.(alive := Probed(s.alive));
    if SendsProbe(s.alive) then Probe(s', script) else Ran(s', script)
  }

  datatype LinkEvent =
    | SendPayload(payload: Payload, reliable: bool)
    | TriggerNextFrame
    | Deliver(frame: HdlcFrame, invalid: bool)
    | TimerExpired
    | StateTimedOut
    | ProbeTimedOut
    | StartLink
    | StopLink

  /** Timers fire only while armed; the parser delivers three-bit sequence numbers. */
  predicate Enabled(s: Link, e: LinkEvent) {
    match e
    case TimerExpired => s.timer != Off
    case StateTimedOut => s.started
    case ProbeTimedOut => s.started
    case Deliver(f, _) => f.sseq < 8 && f.rseq < 8
    case _ => true
  }

  function Step(s: Link, e: LinkEvent, script: seq<ClientAction>): Ran
    requires Safe(s) && s.rseq < 8 && Enabled(s, e)
  {
    match e
    case SendPayload(payload, reliable) => Send(s, payload, reliable, script)
    case TriggerNextFrame => Trigger(s, script)
    case Deliver(f, invalid) => Receive(s, f, invalid, script)
    case TimerExpired => Expire(s, script)
    case StateTimedOut => Ran(s.(alive := Doubted(s.alive)), script)
    case ProbeTimedOut => OnProbeTimeout(s, script)
    case StartLink => Start(s, script)
    case StopLink => Ran(Stop(s), script)
  }
}
