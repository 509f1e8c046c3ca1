/** The link entity, a peer, and a lossy but order-preserving line between them.

  The peer accepts an information frame if and only if its N(S) is the one it
  expects, and reports the expected number in the N(R) of everything it sends.  It
  may send RR, RNR and information frames at any time, SREJ with any number, and
  unnumbered frames, but no REJ.  Frames may be lost in either direction.

  Within one session the numbers in play are always two neighbours, so numbers
  modulo 8 never alias; the invariant below says which frames can be where.
 */
module Arq {
  import opened HdlcFrames
  import opened Framing
  import opened AliveStates
  import opened Links
  import opened LinkInvariants
  import opened Stutters
  import opened LinkTheorems

  datatype Peer = Peer(expected: uint8, accepted: seq<Payload>)

  datatype World = World(
    link: Link,
    peer: Peer,
    down: seq<HdlcFrame>,   // on the way to the peer, oldest first
    up: seq<HdlcFrame>,     // on the way to the link
    orphans: nat)           // acknowledgements that came while none was awaited

  datatype Act =
    | Local(event: LinkEvent, script: seq<ClientAction>)
    | PeerReceives
    | PeerSends(frame: HdlcFrame)
    | LinkReceives(script: seq<ClientAction>)
    | LoseDown(i: nat)
    | LoseUp(i: nat)

  /** Everything that happens to a link during a session, except valid frames. */
  predicate IsLocal(e: LinkEvent) {
    !e.StartLink? && !e.StopLink? && (e.Deliver? ==> e.invalid)
  }

  predicate IsAck(f: HdlcFrame) {
    f.frameType == I || f.frameType == RR || f.frameType == RNR
  }

  predicate MaySend(peer: Peer, f: HdlcFrame) {
    && f.rseq < 8 && f.sseq < 8 && f.frameType != REJ
    && (IsAck(f) ==> f.rseq == peer.expected)
  }

  predicate Possible(w: World, a: Act) {
    match a
    case Local(e, _) => IsLocal(e) && Enabled(w.link, e)
    case PeerReceives => w.down != []
    case PeerSends(f) => MaySend(w.peer, f)
    case LinkReceives(_) => w.up != []
    case LoseDown(i) => i < |w.down|
    case LoseUp(i) => i < |w.up|
  }

  function Next(e: nat): nat {
    (e + 1) % 8
  }

  function Accept(peer: Peer, f: HdlcFrame): Peer {
    if f.IsIFrame() && f.sseq == peer.expected
    then Peer(Next(peer.expected), peer.accepted + [f.payload])
    else peer
  }

  /** What the link put on the line, as the other side reads it. */
  function OnTheLine(s: Link, t: Link): seq<HdlcFrame> {
    if |t.log.sent| > |s.log.sent| then [OnWire(t.log.sent[|s.log.sent|])] else []
  }

  function Without<T>(xs: seq<T>, i: nat): seq<T>
    requires i < |xs|
  {
    xs[..i] + xs[i + 1..]
  }

  /** An acknowledgement of the outstanding number that finds nothing outstanding:
      the send number advances, but the payload stays at the head of the queue. */
  predicate Orphan(s: Link, f: HdlcFrame) {
    IsAck(f) && !s.waitForAck && f.rseq == Next(s.sseq)
  }

  // ---------- The invariant ----------

  predicate DataOk(down: seq<HdlcFrame>, sseq: uint8, expected: uint8, reliable: seq<Payload>) {
    if expected == sseq then
      && (forall i :: 0 <= i < |down| && down[i].IsIFrame() ==>
            if down[i].sseq == expected then reliable != [] && down[i].payload == reliable[0]
            else Next(down[i].sseq) == expected && down[i].sseq < 8)
      && (forall i, j :: 0 <= i < j < |down| && down[i].IsIFrame() && down[j].IsIFrame() ==>
            down[i].sseq == expected ==> down[j].sseq == expected)
    else
      && expected == Next(sseq)
      && (forall i :: 0 <= i < |down| && down[i].IsIFrame() ==> down[i].sseq == sseq)
  }

  predicate AcksOk(up: seq<HdlcFrame>, sseq: uint8, expected: uint8) {
    && (forall i :: 0 <= i < |up| ==> up[i].rseq < 8 && up[i].sseq < 8 && up[i].frameType != REJ)
    && (forall i :: 0 <= i < |up| && IsAck(up[i]) ==> up[i].rseq == expected || up[i].rseq == sseq)
    && (forall i, j :: 0 <= i < j < |up| && IsAck(up[i]) && IsAck(up[j]) ==>
          up[i].rseq == expected ==> up[j].rseq == expected)
  }

  /** The peer has accepted the popped payloads, each at least once and in order, and
      then perhaps copies of the head; it has accepted the head for certain if it is
      one ahead. */
  predicate HistoryOk(accepted: seq<Payload>, popped: seq<Payload>, reliable: seq<Payload>, ahead: bool) {
    || (!ahead && Stutter(accepted, popped))
    || (reliable != [] && Stutter(accepted, popped + [reliable[0]]))
  }

  predicate Ahead(w: World) {
    w.peer.expected != w.link.sseq
  }

  predicate Session(w: World) {
    && w.link.sseq < 8 && w.peer.expected < 8
    && DataOk(w.down, w.link.sseq, w.peer.expected, w.link.reliable)
    && AcksOk(w.up, w.link.sseq, w.peer.expected)
    && HistoryOk(w.peer.accepted, w.link.log.popped, w.link.reliable, Ahead(w))
    && |w.peer.accepted| == |w.link.log.popped| + w.orphans + (if Ahead(w) then 1 else 0)
  }

  predicate Good(w: World) {
    Inv(w.link) && Session(w)
  }

  /** The link has become t, and what it handed over meanwhile is on the line. */
  function Shipped(w: World, t: Link): World {
    w.(link := t, down := w.down + OnTheLine(w.link, t))
  }

  function Happen(w: World, a: Act): World
    requires Good(w) && Possible(w, a)
  {
    match a
    case Local(e, script) =>
      Shipped(w, Step(w.link, e, script).link)
    case PeerReceives => w.(peer := Accept(w.peer, w.down[0]), down := w.down[1..])
    case PeerSends(f) => w.(up := w.up + [f])
    case LinkReceives(script) =>
      var f := w.up[0];
      Shipped(w.(up := w.up[1..], orphans := w.orphans + (if w.link.started && Orphan(w.link, f) then 1 else 0)),
              Receive(w.link, f, false, script).link)
    case LoseDown(i) => w.(down := Without(w.down, i))
    case LoseUp(i) => w.(up := Without(w.up, i))
  }

  // ---------- Preservation ----------

  lemma WithoutAt<T>(xs: seq<T>, i: nat)
    requires i < |xs|
    ensures |Without(xs, i)| == |xs| - 1
    ensures forall j :: 0 <= j < |Without(xs, i)| ==> Without(xs, i)[j] == if j < i then xs[j] else xs[j + 1]
  {
  }

  lemma DataWithout(down: seq<HdlcFrame>, i: nat, sseq: uint8, expected: uint8, reliable: seq<Payload>)
    requires i < |down| && DataOk(down, sseq, expected, reliable)
    ensures DataOk(Without(down, i), sseq, expected, reliable)
  {
    WithoutAt(down, i);
  }

  lemma AcksWithout(up: seq<HdlcFrame>, i: nat, sseq: uint8, expected: uint8)
    requires i < |up| && AcksOk(up, sseq, expected)
    ensures AcksOk(Without(up, i), sseq, expected)
  {
    WithoutAt(up, i);
  }

  /** The queue may grow, and a further copy of the head may be put on the line. */
  lemma DataMore(down: seq<HdlcFrame>, sseq: uint8, expected: uint8, reliable: seq<Payload>, reliable': seq<Payload>, extra: seq<HdlcFrame>)
    requires sseq < 8 && expected < 8
    requires DataOk(down, sseq, expected, reliable) && reliable <= reliable'
    requires |extra| <= 1
    requires extra != [] && extra[0].IsIFrame() ==>
      reliable' != [] && extra[0].sseq == sseq && extra[0].payload == reliable'[0]
    ensures DataOk(down + extra, sseq, expected, reliable')
  {
  }

  lemma HistoryMore(accepted: seq<Payload>, popped: seq<Payload>, reliable: seq<Payload>, reliable': seq<Payload>, ahead: bool)
    requires HistoryOk(accepted, popped, reliable, ahead) && reliable <= reliable'
    ensures HistoryOk(accepted, popped, reliable', ahead)
  {
  }

  /** What a transmit opportunity means for the session. */
  lemma DisciplinedSession(w: World, p: Link, t: Link)
    requires Session(w.(link := p)) && Disciplined(p, t)
    ensures Session(w.(link := t, down := w.down + OnTheLine(p, t)))
  {
    DataMore(w.down, p.sseq, w.peer.expected, p.reliable, t.reliable, OnTheLine(p, t));
    HistoryMore(w.peer.accepted, p.log.popped, p.reliable, t.reliable, Ahead(w.(link := p)));
  }

  lemma LeadSession(w: World, p: Link, t: Link)
    requires Good(w) && Disciplined(p, t)
    requires p.sseq == w.link.sseq && w.link.reliable <= p.reliable
    requires p.log.popped == w.link.log.popped && p.log.sent == w.link.log.sent
    ensures Session(Shipped(w, t))
  {
    DataMore(w.down, p.sseq, w.peer.expected, w.link.reliable, p.reliable, []);
    assert w.down + [] == w.down;
    HistoryMore(w.peer.accepted, p.log.popped, w.link.reliable, p.reliable, Ahead(w));
    DisciplinedSession(w, p, t);
  }

  lemma SendLocally(w: World, payload: Payload, reliable: bool, script: seq<ClientAction>)
    requires Good(w)
    ensures Session(Shipped(w, Send(w.link, payload, reliable, script).link))
  {
    SendPayloadDisciplined(w.link, payload, reliable, script);
    LeadSession(w, Enqueued(w.link, payload, reliable), Send(w.link, payload, reliable, script).link);
  }

  lemma TriggerLocally(w: World, script: seq<ClientAction>)
    requires Good(w)
    ensures Session(Shipped(w, Trigger(w.link, script).link))
  {
    TriggerDisciplined(w.link, script);
    LeadSession(w, AfterTrigger(w.link), Trigger(w.link, script).link);
  }

  lemma ExpireLocally(w: World, script: seq<ClientAction>)
    requires Good(w) && w.link.timer != Off
    ensures Session(Shipped(w, Expire(w.link, script).link))
  {
    ExpiryDisciplined(w.link, script);
    LeadSession(w, AfterExpiry(w.link), Expire(w.link, script).link);
  }

  lemma ProbeLocally(w: World, script: seq<ClientAction>)
    requires Good(w) && w.link.started
    ensures Session(Shipped(w, OnProbeTimeout(w.link, script).link))
  {
    ProbeTimeoutDisciplined(w.link, script);
    LeadSession(w, AfterProbeTimeout(w.link), OnProbeTimeout(w.link, script).link);
  }

  lemma DoubtLocally(w: World)
    requires Good(w)
    ensures Session(Shipped(w, w.link)) && Session(Shipped(w, w.link.(alive := Doubted(w.link.alive))))
  {
    var t := w.link.(alive := Doubted(w.link.alive));
    QuietDisciplined(w.link, t);
    LeadSession(w, t, t);
    LeadSession(w, w.link, w.link);
  }

  lemma LocalKeeps(w: World, e: LinkEvent, script: seq<ClientAction>)
    requires Good(w) && IsLocal(e) && Enabled(w.link, e)
    ensures Good(Shipped(w, Step(w.link, e, script).link))
  {
    StepKeeps(w.link, e, script);
    match e {
      case SendPayload(payload, reliable) => SendLocally(w, payload, reliable, script);
      case TriggerNextFrame => TriggerLocally(w, script);
      case Deliver(f, invalid) => DoubtLocally(w);
      case TimerExpired => ExpireLocally(w, script);
      case StateTimedOut => DoubtLocally(w);
      case ProbeTimedOut => ProbeLocally(w, script);
      case _ =>
    }
  }

  lemma AcceptKeeps(w: World)
    requires Good(w) && w.down != []
    ensures Good(w.(peer := Accept(w.peer, w.down[0]), down := w.down[1..]))
  {
    var f := w.down[0];
    DataWithout(w.down, 0, w.link.sseq, w.peer.expected, w.link.reliable);
    assert Without(w.down, 0) == w.down[1..];
    if f.IsIFrame() && f.sseq == w.peer.expected {
      StutterMore(w.peer.accepted, w.link.log.popped, f.payload);
    }
  }

  // ---------- Acknowledgements ----------

  /** How a frame from the peer moves the send number and the queue. */
  predicate Moved(s: Link, f: HdlcFrame, t: Link) {
    && t.log.sent == s.log.sent
    && t.sseq == (if IsAck(f) then f.rseq else s.sseq)
    && (if IsAck(f) && AcksHead(s, f.rseq) then
          s.reliable != [] && t.reliable == s.reliable[1..] && t.log.popped == s.log.popped + [s.reliable[0]]
        else
          t.reliable == s.reliable && t.log.popped == s.log.popped)
  }

  lemma AckedMoves(s: Link, f: HdlcFrame)
    requires Safe(s) && IsAck(f)
    ensures Moved(s, f, AckedUpTo(s, f.rseq))
  {
  }

  lemma AckedByRNRMoves(s: Link, f: HdlcFrame)
    requires Safe(s) && (s.peerStoppedFlow ==> !s.waitForAck) && IsAck(f)
    ensures Moved(s, f, AckedByRNR(s, f.rseq))
  {
  }

  lemma RestartedMoves(s: Link, f: HdlcFrame)
    requires Safe(s) && (s.peerStoppedFlow ==> !s.waitForAck) && !IsAck(f)
    ensures Moved(s, f, s) && Moved(s, f, RequestedAgain(s, f.rseq))
  {
  }

  lemma AcknowledgedMoves(s: Link, f: HdlcFrame)
    requires Safe(s) && (s.peerStoppedFlow ==> !s.waitForAck) && f.frameType != REJ
    ensures Moved(s, f, Acknowledged(s, f))
  {
    match f.frameType {
      case I => AckedMoves(s, f);
      case RR => AckedMoves(Restarted(s), f);
      case RNR => AckedByRNRMoves(s, f);
      case SREJ => RestartedMoves(s, f);
      case REJ =>
      case _ => RestartedMoves(s, f);
    }
  }

  lemma InterpretedMoves(s: Link, f: HdlcFrame)
    requires Inv(s) && f.sseq < 8 && f.frameType != REJ
    ensures Moved(s, f, Interpreted(s, f))
  {
    AcknowledgedMoves(Noted(s.(alive := Heard(s.alive)), f), f);
  }

  function Counting(w: World, f: HdlcFrame): nat {
    w.orphans + (if Orphan(w.link, f) then 1 else 0)
  }

  /** A frame that acknowledges nothing new leaves the session as it is. */
  lemma StaleSession(w: World, q: Link)
    requires Good(w) && w.up != [] && Moved(w.link, w.up[0], q)
    requires IsAck(w.up[0]) ==> w.up[0].rseq == w.link.sseq
    ensures Session(w.(link := q, up := w.up[1..], orphans := Counting(w, w.up[0])))
  {
    AcksWithout(w.up, 0, w.link.sseq, w.peer.expected);
    assert Without(w.up, 0) == w.up[1..];
  }

  /** Once the link has the expected number, every later acknowledgement carries it. */
  lemma AcksCaughtUp(up: seq<HdlcFrame>, sseq: uint8, expected: uint8)
    requires up != [] && AcksOk(up, sseq, expected) && IsAck(up[0]) && up[0].rseq == expected
    ensures AcksOk(up[1..], expected, expected)
  {
    assert forall j :: 0 <= j < |up[1..]| ==> up[1..][j] == up[j + 1];
  }

  lemma DataCaughtUp(down: seq<HdlcFrame>, sseq: uint8, expected: uint8, reliable: seq<Payload>, reliable': seq<Payload>)
    requires DataOk(down, sseq, expected, reliable) && expected != sseq && sseq < 8
    ensures DataOk(down, expected, expected, reliable')
  {
  }

  /** The link catches up with the peer. */
  lemma CatchUpSession(w: World, q: Link)
    requires Good(w) && w.up != [] && Moved(w.link, w.up[0], q)
    requires IsAck(w.up[0]) && w.up[0].rseq != w.link.sseq
    ensures Session(w.(link := q, up := w.up[1..], orphans := Counting(w, w.up[0])))
  {
    AcksCaughtUp(w.up, w.link.sseq, w.peer.expected);
    DataCaughtUp(w.down, w.link.sseq, w.peer.expected, w.link.reliable, q.reliable);
  }

  /** The session after a frame was interpreted: the peer is caught up with, either by
      taking the head off its queue or by an orphan. */
  lemma AckSession(w: World, q: Link)
    requires Good(w) && w.up != [] && Moved(w.link, w.up[0], q)
    ensures Session(w.(link := q, up := w.up[1..], orphans := Counting(w, w.up[0])))
  {
    if IsAck(w.up[0]) && w.up[0].rseq != w.link.sseq {
      CatchUpSession(w, q);
    } else {
      StaleSession(w, q);
    }
  }

  lemma StartedReceiveKeeps(w: World, script: seq<ClientAction>)
    requires Good(w) && w.up != [] && w.link.started
    ensures Session(Happen(w, LinkReceives(script)))
  {
    var f := w.up[0];
    var q := Interpreted(w.link, f);
    InterpretedMoves(w.link, f);
    AckSession(w, q);
    OpportunityDisciplined(q, script);
    DisciplinedSession(w.(up := w.up[1..], orphans := Counting(w, f)), q, Opportunity(q, script).link);
  }

  lemma StoppedReceiveKeeps(w: World, script: seq<ClientAction>)
    requires Good(w) && w.up != [] && !w.link.started
    ensures Session(Happen(w, LinkReceives(script)))
  {
    AcksWithout(w.up, 0, w.link.sseq, w.peer.expected);
    assert Without(w.up, 0) == w.up[1..];
    DoubtLocally(w.(up := w.up[1..]));
  }

  lemma ReceiveKeeps(w: World, script: seq<ClientAction>)
    requires Good(w) && w.up != []
    ensures Good(Happen(w, LinkReceives(script)))
  {
    StepKeeps(w.link, Deliver(w.up[0], false), script);
    if w.link.started {
      StartedReceiveKeeps(w, script);
    } else {
      StoppedReceiveKeeps(w, script);
    }
  }

  lemma PeerSendsKeeps(w: World, f: HdlcFrame)
    requires Good(w) && MaySend(w.peer, f)
    ensures Good(w.(up := w.up + [f]))
  {
  }

  /** The invariant holds in every session. */
  lemma HappenKeeps(w: World, a: Act)
    requires Good(w) && Possible(w, a)
    ensures Good(Happen(w, a))
  {
    match a
    case Local(e, script) => LocalKeeps(w, e, script);
    case PeerReceives => AcceptKeeps(w);
    case PeerSends(f) => PeerSendsKeeps(w, f);
    case LinkReceives(script) => ReceiveKeeps(w, script);
    case LoseDown(i) => DataWithout(w.down, i, w.link.sseq, w.peer.expected, w.link.reliable);
    case LoseUp(i) => AcksWithout(w.up, i, w.link.sseq, w.peer.expected);
  }
}
