/** What a whole session guarantees to the clients. */
module ArqTheorems {
  import opened HdlcFrames
  import opened AliveStates
  import opened Links
  import opened LinkInvariants
  import opened Stutters
  import opened LinkTheorems
  import opened LinkFrames
  import opened LinkOffers
  import opened LinkRuns
  import opened LinkTimer
  import opened Arq

  // ---------- Sessions ----------

  /** A link about to be started, with whatever is left in its queues; the log starts
      afresh. */
  function Fresh(s: Link): Link {
    Reset(s).(log := NO_LOG.(enqueued := s.reliable, enqueuedUnreliable := s.unreliable))
  }

  /** The link is about to send its first frame, and the peer expects number 0. */
  function Outset(s: Link): World {
    World(Reset(Fresh(s)).(started := true, sendProbe := true), Peer(0, []), [], [], 0)
  }

  lemma OutsetSession(s: Link)
    ensures Inv(Fresh(s)) && Session(Outset(s))
  {
  }

  lemma OpeningGood(s: Link, script: seq<ClientAction>)
    ensures Good(Shipped(Outset(s), Start(Fresh(s), script).link))
  {
    OutsetSession(s);
    StartKeeps(Fresh(s), script);
    StartDisciplined(Fresh(s), script);
    DisciplinedSession(Outset(s), Outset(s).link, Start(Fresh(s), script).link);
  }

  /** The link starts. */
  function Opening(s: Link, script: seq<ClientAction>): (w: World)
    ensures Good(w)
  {
    OpeningGood(s, script);
    Shipped(Outset(s), Start(Fresh(s), script).link)
  }

  /** A session; what cannot happen is skipped. */
  function Play(w: World, acts: seq<Act>): (w': World)
    requires Good(w)
    ensures Good(w')
    decreases |acts|
  {
    if acts == [] then w
    else if Possible(w, acts[0]) then
      HappenKeeps(w, acts[0]);
      Play(Happen(w, acts[0]), acts[1..])
    else Play(w, acts[1..])
  }

  // ---------- What the clients hand over ----------

  /** The reliable payloads handed over in one act. */
  function HandedIn(w: World, a: Act): seq<Payload>
    requires Good(w) && Possible(w, a)
  {
    match a
    case Local(e, script) => HandedBy(w.link, e, script, true)
    case LinkReceives(script) => HandedBy(w.link, Deliver(w.up[0], false), script, true)
    case _ => []
  }

  lemma HappenAccepts(w: World, a: Act)
    requires Good(w) && Possible(w, a)
    ensures Happen(w, a).link.log.enqueued == w.link.log.enqueued + HandedIn(w, a)
  {
    match a
    case Local(e, script) => StepTakes(w.link, e, script, true);
    case LinkReceives(script) => StepTakes(w.link, Deliver(w.up[0], false), script, true);
    case _ => assert w.link.log.enqueued + [] == w.link.log.enqueued;
  }

  function HandedSince(w: World, acts: seq<Act>): seq<Payload>
    requires Good(w)
    decreases |acts|
  {
    if acts == [] then []
    else if Possible(w, acts[0]) then
      HappenKeeps(w, acts[0]);
      HandedIn(w, acts[0]) + HandedSince(Happen(w, acts[0]), acts[1..])
    else HandedSince(w, acts[1..])
  }

  lemma {:induction false} PlayAccepts(w: World, acts: seq<Act>)
    requires Good(w)
    ensures Play(w, acts).link.log.enqueued == w.link.log.enqueued + HandedSince(w, acts)
    decreases |acts|
  {
    if acts != [] {
      if Possible(w, acts[0]) {
        var v := Happen(w, acts[0]);
        HappenKeeps(w, acts[0]);
        HappenAccepts(w, acts[0]);
        PlayAccepts(v, acts[1..]);
        AcceptedOn(w.link.log.enqueued, HandedIn(w, acts[0]), HandedSince(v, acts[1..]),
                   v.link.log.enqueued, Play(v, acts[1..]).link.log.enqueued);
      } else {
        PlayAccepts(w, acts[1..]);
      }
    }
  }

  /** Everything the clients handed over for a session: what was left from before it,
      and what came in it. */
  function HandedOver(s: Link, script: seq<ClientAction>, acts: seq<Act>): seq<Payload> {
    s.reliable + HandedSince(Opening(s, script), acts)
  }

  lemma SessionAccepts(s: Link, script: seq<ClientAction>, acts: seq<Act>)
    ensures Play(Opening(s, script), acts).link.log.enqueued == HandedOver(s, script, acts)
  {
    StartsAfresh(Fresh(s), script);
    PlayAccepts(Opening(s, script), acts);
  }

  // ---------- At least once ----------

  /** What the peer's acceptances are copies of. */
  function Begun(w: World, head: bool): seq<Payload>
    requires head ==> w.link.reliable != []
  {
    w.link.log.popped + if head then [w.link.reliable[0]] else []
  }

  lemma GoodCopies(w: World) returns (head: bool, copies: seq<nat>)
    requires Good(w)
    ensures head ==> w.link.reliable != []
    ensures Copies(w.peer.accepted, Begun(w, head), copies)
  {
    assert w.link.log.popped + [] == w.link.log.popped;
    head := !Stutter(w.peer.accepted, w.link.log.popped);
    copies := StutterCopies(w.peer.accepted, Begun(w, head));
  }

  /** Reliable payloads reach the peer at least once and in order: what was popped was
      accepted, each payload one or more times in a row, possibly followed by copies of
      the head of the queue, and nothing else was accepted.  Copy i of `copies` tells
      which payload the i-th acceptance was. */
  lemma AtLeastOnceInOrder(s: Link, script: seq<ClientAction>, acts: seq<Act>) returns (head: bool, copies: seq<nat>)
    ensures var w := Play(Opening(s, script), acts);
      && HandedOver(s, script, acts) == w.link.log.popped + w.link.reliable
      && (head ==> w.link.reliable != [])
      && Copies(w.peer.accepted, Begun(w, head), copies)
  {
    SessionAccepts(s, script, acts);
    head, copies := GoodCopies(Play(Opening(s, script), acts));
  }

  /** What the peer would have accepted if every payload was accepted exactly once. */
  function ExactlyOnce(w: World): seq<Payload>
    requires Good(w)
  {
    Begun(w, Ahead(w))
  }

  lemma CountsDecide(accepted: seq<Payload>, popped: seq<Payload>, reliable: seq<Payload>, ahead: bool, orphans: nat)
    requires HistoryOk(accepted, popped, reliable, ahead) && (ahead ==> reliable != [])
    requires |accepted| == |popped| + orphans + (if ahead then 1 else 0)
    ensures accepted == popped + (if ahead then [reliable[0]] else []) <==> orphans == 0
  {
    assert popped + [] == popped;
    if orphans == 0 {
      if reliable != [] && Stutter(accepted, popped + [reliable[0]]) {
        StutterLength(accepted, popped + [reliable[0]]);
      } else {
        StutterLength(accepted, popped);
      }
    }
  }

  /** The number of acceptances is the number of payloads plus the number of orphans;
      so delivery is exactly once if and only if no acknowledgement was orphaned. */
  lemma ExactlyOnceIffNoOrphan(s: Link, script: seq<ClientAction>, acts: seq<Act>)
    ensures var w := Play(Opening(s, script), acts);
      && |w.peer.accepted| == |ExactlyOnce(w)| + w.orphans
      && (w.peer.accepted == ExactlyOnce(w) <==> w.orphans == 0)
  {
    var w := Play(Opening(s, script), acts);
    CountsDecide(w.peer.accepted, w.link.log.popped, w.link.reliable, Ahead(w), w.orphans);
  }

  // ---------- A peer without flow control, and prompt retransmission ----------

  /** The retransmission happens at once. */
  predicate CanResend(s: Link) {
    s.awaitsNextFrame && s.alive.IsAlive() && !s.sendProbe && s.srejs == []
  }

  predicate Prompt(w: World, a: Act) {
    match a
    case Local(e, _) => e.TimerExpired? ==> CanResend(w.link)
    case PeerSends(f) => f.frameType != RNR && f.frameType != SREJ
    case _ => true
  }

  /** A copy of the head is under way, or was accepted. */
  predicate InFlight(w: World) {
    Ahead(w) || exists i :: 0 <= i < |w.down| && w.down[i].IsIFrame() && w.down[i].sseq == w.link.sseq
  }

  predicate Exact(w: World) {
    && Good(w) && w.orphans == 0
    && FlowFree(w.link)
    && (InFlight(w) ==> w.link.waitForAck)
    && (forall i :: 0 <= i < |w.up| ==> w.up[i].frameType != RNR && w.up[i].frameType != SREJ)
  }

  lemma DisciplinedExact(w: World, p: Link, t: Link)
    requires Session(w.(link := p)) && FlowFree(p) && Disciplined(p, t)
    requires InFlight(w.(link := p)) ==> p.waitForAck
    ensures var w' := w.(link := t, down := w.down + OnTheLine(p, t));
      FlowFree(t) && (InFlight(w') ==> t.waitForAck)
  {
  }

  lemma ResendExact(s: Link, script: seq<ClientAction>)
    requires Inv(s) && FlowFree(s) && s.timer != Off && CanResend(s)
    ensures var t := Expire(s, script).link; FlowFree(t) && (s.timer == Retransmit ==> t.waitForAck)
    ensures s.timer == Poll ==> Expire(s, script).link == s.(timer := Off)
  {
  }

  /** InFlight looks at the send number and the line only. */
  lemma InFlightAlike(w: World, p: Link)
    requires p.sseq == w.link.sseq
    ensures InFlight(w.(link := p)) == InFlight(w)
  {
  }

  lemma LocalExact(w: World, e: LinkEvent, script: seq<ClientAction>)
    requires Exact(w) && Possible(w, Local(e, script)) && Prompt(w, Local(e, script)) && !e.TimerExpired?
    ensures Exact(Happen(w, Local(e, script)))
  {
    HappenKeeps(w, Local(e, script));
    StepFlowFree(w.link, e, script);
    StepDisciplined(w.link, e, script);
    var p := Prepared(w.link, e);
    PreparedLocally(w.link, e);
    InFlightAlike(w, p);
    PreparedSession(w, p);
    DisciplinedExact(w, p, Step(w.link, e, script).link);
  }

  predicate Carried(s: Link, p: Link) {
    && p.sseq == s.sseq && s.reliable <= p.reliable && p.log.popped == s.log.popped && p.log.sent == s.log.sent
    && p.waitForAck == s.waitForAck
  }

  lemma EnqueuedCarried(s: Link, payload: Payload, reliable: bool)
    ensures Carried(s, Enqueued(s, payload, reliable))
  {
  }

  lemma OthersCarried(s: Link)
    ensures Carried(s, s) && Carried(s, AfterTrigger(s)) && Carried(s, AfterProbeTimeout(s))
    ensures Carried(s, s.(alive := Doubted(s.alive)))
  {
  }

  lemma PreparedLocally(s: Link, e: LinkEvent)
    requires Inv(s) && Enabled(s, e) && IsLocal(e) && !e.TimerExpired?
    ensures Carried(s, Prepared(s, e))
  {
    match e
    case SendPayload(payload, reliable) => EnqueuedCarried(s, payload, reliable);
    case _ => OthersCarried(s);
  }

  lemma PreparedSession(w: World, p: Link)
    requires Good(w)
    requires p.sseq == w.link.sseq && w.link.reliable <= p.reliable && p.log.popped == w.link.log.popped
    ensures Session(w.(link := p))
  {
    DataMore(w.down, p.sseq, w.peer.expected, w.link.reliable, p.reliable, []);
    assert w.down + [] == w.down;
    HistoryMore(w.peer.accepted, p.log.popped, w.link.reliable, p.reliable, Ahead(w));
  }

  lemma ExpiryExact(w: World, script: seq<ClientAction>)
    requires Exact(w) && Possible(w, Local(TimerExpired, script)) && CanResend(w.link)
    ensures Exact(Happen(w, Local(TimerExpired, script)))
  {
    HappenKeeps(w, Local(TimerExpired, script));
    ResendExact(w.link, script);
    if w.link.timer == Poll {
      InFlightAlike(w, w.link.(timer := Off));
    }
  }

  lemma AcceptExact(w: World)
    requires Exact(w) && w.down != []
    ensures Exact(Happen(w, PeerReceives))
  {
    HappenKeeps(w, PeerReceives);
    var w' := Happen(w, PeerReceives);
    assert forall i :: 0 <= i < |w'.down| ==> w'.down[i] == w.down[i + 1];
  }

  lemma LossDownExact(w: World, i: nat)
    requires Exact(w) && i < |w.down|
    ensures Exact(Happen(w, LoseDown(i)))
  {
    HappenKeeps(w, LoseDown(i));
    WithoutAt(w.down, i);
  }

  lemma LossUpExact(w: World, i: nat)
    requires Exact(w) && i < |w.up|
    ensures Exact(Happen(w, LoseUp(i)))
  {
    HappenKeeps(w, LoseUp(i));
    WithoutAt(w.up, i);
  }

  /** An RR or information frame either acknowledges the outstanding frame, or nothing. */
  lemma InterpretedExact(w: World)
    requires Exact(w) && w.up != [] && w.link.started
    ensures var f := w.up[0]; var q := Interpreted(w.link, f); var w' := w.(link := q, up := w.up[1..]);
      && !Orphan(w.link, f) && FlowFree(q)
      && (InFlight(w') ==> q.waitForAck)
  {
    var f := w.up[0];
    InterpretedMoves(w.link, f);
    InterpretedFlowFree(w.link, f);
    InterpretedAwaits(w.link, f);
  }

  lemma InterpretedAwaits(s: Link, f: HdlcFrame)
    requires Inv(s) && f.sseq < 8 && FlowFree(s) && f.frameType !in {RNR, REJ, SREJ}
    ensures Interpreted(s, f).waitForAck <==> s.waitForAck && !(IsAck(f) && AcksHead(s, f.rseq))
  {
  }

  lemma ReceiveExact(w: World, script: seq<ClientAction>)
    requires Exact(w) && w.up != []
    ensures Exact(Happen(w, LinkReceives(script)))
  {
    var f := w.up[0];
    HappenKeeps(w, LinkReceives(script));
    assert forall i :: 0 <= i < |w.up[1..]| ==> w.up[1..][i] == w.up[i + 1];
    if w.link.started {
      var q := Interpreted(w.link, f);
      InterpretedExact(w);
      InterpretedMoves(w.link, f);
      AckSession(w, q);
      OpportunityDisciplined(q, script);
      DisciplinedExact(w.(up := w.up[1..]), q, Opportunity(q, script).link);
    }
  }

  /** Exactly once: if the peer uses neither RNR nor SREJ and every retransmission can
      take place at once, then no acknowledgement is ever orphaned. */
  lemma {:induction false} PromptSessionsAreExact(w: World, acts: seq<Act>)
    requires Exact(w) && AllPrompt(w, acts)
    ensures Exact(Play(w, acts))
    decreases |acts|
  {
    if acts != [] {
      var a := acts[0];
      if Possible(w, a) {
        HappenExact(w, a);
        HappenKeeps(w, a);
        PromptSessionsAreExact(Happen(w, a), acts[1..]);
      } else {
        PromptSessionsAreExact(w, acts[1..]);
      }
    }
  }

  /** Every act of the session is prompt in the state in which it happens. */
  predicate AllPrompt(w: World, acts: seq<Act>)
    requires Good(w)
    decreases |acts|
  {
    if acts == [] then true
    else if Possible(w, acts[0]) then
      HappenKeeps(w, acts[0]);
      Prompt(w, acts[0]) && AllPrompt(Happen(w, acts[0]), acts[1..])
    else AllPrompt(w, acts[1..])
  }

  lemma HappenExact(w: World, a: Act)
    requires Exact(w) && Possible(w, a) && Prompt(w, a)
    ensures Exact(Happen(w, a))
  {
    match a
    case Local(e, script) =>
      if e.TimerExpired? {
        ExpiryExact(w, script);
      } else {
        LocalExact(w, e, script);
      }
    case PeerReceives => AcceptExact(w);
    case PeerSends(f) => SendsExact(w, f);
    case LinkReceives(script) => ReceiveExact(w, script);
    case LoseDown(i) => LossDownExact(w, i);
    case LoseUp(i) => LossUpExact(w, i);
  }

  lemma SendsExact(w: World, f: HdlcFrame)
    requires Exact(w) && MaySend(w.peer, f) && f.frameType != RNR && f.frameType != SREJ
    ensures Exact(Happen(w, PeerSends(f)))
  {
    HappenKeeps(w, PeerSends(f));
  }

  lemma OpeningExact(s: Link, script: seq<ClientAction>)
    ensures Exact(Opening(s, script))
  {
    var p := Reset(Fresh(s)).(started := true, sendProbe := true);
    StartDisciplined(Fresh(s), script);
    DisciplinedExact(World(p, Peer(0, []), [], [], 0), p, Start(Fresh(s), script).link);
  }

  /** So the peer accepts every payload exactly once and in order. */
  lemma ExactlyOnceInOrder(s: Link, script: seq<ClientAction>, acts: seq<Act>)
    ensures AllPrompt(Opening(s, script), acts) ==>
      var w := Play(Opening(s, script), acts);
      w.peer.accepted == ExactlyOnce(w) && HandedOver(s, script, acts) == w.link.log.popped + w.link.reliable
  {
    SessionAccepts(s, script, acts);
    if AllPrompt(Opening(s, script), acts) {
      OpeningExact(s, script);
      PromptSessionsAreExact(Opening(s, script), acts);
      ExactlyOnceIffNoOrphan(s, script, acts);
    }
  }

  // ---------- Without promptness: a duplicate ----------

  /** Nothing is outstanding, queued or under way. */
  predicate IdleSession(w: World) {
    var s := w.link;
    && s.started && s.awaitsNextFrame && s.alive == Heard(s.alive) && !s.sendProbe && s.srejs == []
    && s.reliable == [] && s.unreliable == [] && !s.waitForAck && FlowFree(s)
    && !Ahead(w) && w.down == [] && w.up == []
  }

  /** The wait has ended, the payload is still at the head and the slot is taken. */
  predicate Unheard(s: Link, payload: Payload) {
    && s.started && !s.waitForAck && !s.peerStoppedFlow && !s.awaitsNextFrame && s.alive == Heard(s.alive)
    && !s.sendProbe && s.srejs == [] && s.reliable == [payload]
  }

  function RRFrame(r: uint8): HdlcFrame {
    HdlcFrame(LINK_ADDRESS, RR, false, r, 0, [])
  }

  function RNRFrame(r: uint8): HdlcFrame {
    HdlcFrame(LINK_ADDRESS, RNR, false, r, 0, [])
  }

  function SREJFrame(r: uint8): HdlcFrame {
    HdlcFrame(LINK_ADDRESS, SREJ, false, r, 0, [])
  }

  // The timer fires while the slot is still taken, the acknowledgement arrives before
  // the slot is free, and the same payload is sent again under the next number.
  function DuplicatingActs(expected: uint8, payload: Payload): seq<Act>
    requires expected < 8
  {
    [Local(SendPayload(payload, true), []),
     PeerReceives,
     Local(TimerExpired, []),
     PeerSends(RRFrame(Next(expected))),
     LinkReceives([]),
     Local(TriggerNextFrame, []),
     PeerReceives]
  }

  predicate Leads(w: World, a: Act, v: World) {
    Good(w) ==> Possible(w, a) && Happen(w, a) == v
  }

  lemma PlayStep(w: World, a: Act, rest: seq<Act>, v: World)
    requires Good(w) && Leads(w, a, v)
    ensures Good(v) && Play(w, [a] + rest) == Play(v, rest)
  {
    HappenKeeps(w, a);
    assert ([a] + rest)[1..] == rest;
  }

  lemma SendIdle(s: Link, payload: Payload)
    requires Shape(s) && IdleSession(World(s, Peer(s.sseq, []), [], [], 0))
    ensures Send(s, payload, true, []).link == SentReliable(Enqueued(s, payload, true))
  {
  }

  lemma DuplicateExpired(s: Link)
    requires s.timer == Retransmit && !s.awaitsNextFrame
    ensures Expire(s, []).link == Unawaited(s)
  {
  }

  lemma DuplicateOrphaned(s: Link, r: uint8)
    requires Shape(s) && s.started && !s.waitForAck && !s.peerStoppedFlow && !s.awaitsNextFrame && s.alive == Heard(s.alive)
    ensures Receive(s, RRFrame(r), false, []).link == s.(sseq := r)
  {
  }

  lemma DuplicateResent(s: Link)
    requires s.started && s.alive.IsAlive() && !s.sendProbe && s.srejs == [] && MaySendReliable(s)
    ensures Trigger(s, []).link == SentReliable(s.(awaitsNextFrame := true))
  {
  }

  lemma HappenLocally(w: World, e: LinkEvent, t: Link, shipped: seq<HdlcFrame>)
    requires Good(w) && IsLocal(e) && Enabled(w.link, e) && t == Step(w.link, e, []).link
    requires shipped == OnTheLine(w.link, t)
    ensures Happen(w, Local(e, [])) == w.(link := t, down := w.down + shipped)
  {
  }

  lemma ShippedHead(s: Link)
    requires s.reliable != [] && s.sseq < 8 && s.rseq < 8
    ensures OnTheLine(s, SentReliable(s)) == [IFrame(s.sseq, s.rseq, s.reliable[0])]
  {
  }

  lemma DuplicateSent(w: World, payload: Payload)
    requires Good(w) && IdleSession(w)
    ensures var t := SentReliable(Enqueued(w.link, payload, true));
      Happen(w, Local(SendPayload(payload, true), []))
        == w.(link := t, down := [IFrame(w.peer.expected, w.link.rseq, payload)])
  {
    SendIdle(w.link, payload);
    var s := Enqueued(w.link, payload, true);
    ShippedHead(s);
    HappenLocally(w, SendPayload(payload, true), SentReliable(s), [IFrame(w.peer.expected, w.link.rseq, payload)]);
  }

  lemma DuplicateTimedOut(w: World)
    requires w.link.timer == Retransmit && !w.link.awaitsNextFrame
    ensures Leads(w, Local(TimerExpired, []), w.(link := Unawaited(w.link)))
  {
    if Good(w) {
      DuplicateExpired(w.link);
      HappenLocally(w, TimerExpired, Unawaited(w.link), []);
      assert w.down + [] == w.down;
    }
  }

  lemma DuplicateAcked(w: World, payload: Payload)
    requires w.up == [RRFrame(w.peer.expected)] && Ahead(w)
    requires Unheard(w.link, payload)
    ensures Leads(w, LinkReceives([]), w.(link := w.link.(sseq := w.peer.expected), up := [], orphans := w.orphans + 1))
  {
    if Good(w) {
      DuplicateOrphaned(w.link, w.peer.expected);
      assert w.down + [] == w.down;
    }
  }

  lemma DuplicateTriggered(w: World, payload: Payload)
    requires w.link.sseq == w.peer.expected && w.down == [] && Unheard(w.link, payload)
    ensures Leads(w, Local(TriggerNextFrame, []),
                  w.(link := SentReliable(w.link.(awaitsNextFrame := true)),
                     down := [IFrame(w.peer.expected, w.link.rseq, payload)]))
  {
    if Good(w) {
      DuplicateResent(w.link);
      var s := w.link.(awaitsNextFrame := true);
      ShippedHead(s);
      HappenLocally(w, TriggerNextFrame, SentReliable(s), [IFrame(w.peer.expected, w.link.rseq, payload)]);
    }
  }

  lemma DuplicateLinks(w: World, payload: Payload)
    requires Good(w) && IdleSession(w)
    ensures Unheard(Unawaited(SentReliable(Enqueued(w.link, payload, true))), payload)
  {
  }

  lemma PeerReports(w: World)
    requires w.peer.expected < 8 && w.up == []
    ensures Leads(w, PeerSends(RRFrame(w.peer.expected)), w.(up := [RRFrame(w.peer.expected)]))
  {
  }

  lemma PeerTakes(w: World, rseq: uint8, payload: Payload)
    requires w.peer.expected < 8 && w.down == [IFrame(w.peer.expected, rseq, payload)]
    ensures Leads(w, PeerReceives, w.(peer := Peer(Next(w.peer.expected), w.peer.accepted + [payload]), down := []))
  {
  }

  /** After the first four acts the peer has the payload and its report is on the way,
      but the timer has ended the wait. */
  function ReportedLate(w: World, payload: Payload): World
    requires w.peer.expected < 8
  {
    var e := Next(w.peer.expected);
    w.(link := Unawaited(SentReliable(Enqueued(w.link, payload, true))),
       peer := Peer(e, w.peer.accepted + [payload]), up := [RRFrame(e)])
  }

  lemma FirstCopy(w: World, payload: Payload, rest: seq<Act>)
    requires Good(w) && IdleSession(w)
    ensures Good(ReportedLate(w, payload))
    ensures Play(w, [Local(SendPayload(payload, true), [])] + ([PeerReceives] + ([Local(TimerExpired, [])]
                  + ([PeerSends(RRFrame(Next(w.peer.expected)))] + rest))))
         == Play(ReportedLate(w, payload), rest)
  {
    var s := SentReliable(Enqueued(w.link, payload, true));
    var report := PeerSends(RRFrame(Next(w.peer.expected)));
    var w1 := w.(link := s, down := [IFrame(w.peer.expected, w.link.rseq, payload)]);
    var w2 := w1.(peer := Peer(Next(w.peer.expected), w.peer.accepted + [payload]), down := []);
    var w3 := w2.(link := Unawaited(s));
    DuplicateSent(w, payload);
    PlayStep(w, Local(SendPayload(payload, true), []), [PeerReceives] + ([Local(TimerExpired, [])] + ([report] + rest)), w1);
    PeerTakes(w1, w.link.rseq, payload);
    PlayStep(w1, PeerReceives, [Local(TimerExpired, [])] + ([report] + rest), w2);
    DuplicateTimedOut(w2);
    PlayStep(w2, Local(TimerExpired, []), [report] + rest, w3);
    PeerReports(w3);
    PlayStep(w3, report, rest, ReportedLate(w, payload));
  }

  lemma HeadAgain(w: World, payload: Payload)
    requires Good(w) && w.link.sseq == w.peer.expected && w.down == [] && Unheard(w.link, payload)
    ensures var w' := Play(w, [Local(TriggerNextFrame, [])] + ([PeerReceives] + []));
      && w'.link.log.enqueued == w.link.log.enqueued && w'.orphans == w.orphans
      && w'.peer.accepted == w.peer.accepted + [payload]
  {
    var s := SentReliable(w.link.(awaitsNextFrame := true));
    var w1 := w.(link := s, down := [IFrame(w.peer.expected, w.link.rseq, payload)]);
    DuplicateTriggered(w, payload);
    PlayStep(w, Local(TriggerNextFrame, []), [PeerReceives] + [], w1);
    PeerTakes(w1, w.link.rseq, payload);
    PlayStep(w1, PeerReceives, [], w1.(peer := Peer(Next(w.peer.expected), w.peer.accepted + [payload]), down := []));
  }

  lemma SecondCopy(w: World, payload: Payload)
    requires Good(w) && Ahead(w) && w.up == [RRFrame(w.peer.expected)] && w.down == [] && Unheard(w.link, payload)
    ensures var w' := Play(w, [LinkReceives([])] + ([Local(TriggerNextFrame, [])] + ([PeerReceives] + [])));
      && w'.link.log.enqueued == w.link.log.enqueued && w'.orphans == w.orphans + 1
      && w'.peer.accepted == w.peer.accepted + [payload]
  {
    var w1 := w.(link := w.link.(sseq := w.peer.expected), up := [], orphans := w.orphans + 1);
    DuplicateAcked(w, payload);
    PlayStep(w, LinkReceives([]), [Local(TriggerNextFrame, [])] + ([PeerReceives] + []), w1);
    HeadAgain(w1, payload);
  }

  lemma TwoCopies(e: uint8, payload: Payload)
    requires e < 8
    ensures DuplicatingActs(e, payload)
         == [Local(SendPayload(payload, true), [])] + ([PeerReceives] + ([Local(TimerExpired, [])]
          + ([PeerSends(RRFrame(Next(e)))]
          + ([LinkReceives([])] + ([Local(TriggerNextFrame, [])] + ([PeerReceives] + []))))))
  {
  }

  /** From every idle point of every session the line and the driver can make the peer
      accept the next payload twice. */
  lemma DuplicatePossible(w: World, payload: Payload)
    requires Good(w) && IdleSession(w)
    ensures var w' := Play(w, DuplicatingActs(w.peer.expected, payload));
      && w'.link.log.enqueued == w.link.log.enqueued + [payload]
      && w'.peer.accepted == w.peer.accepted + [payload] + [payload]
      && w'.orphans == w.orphans + 1
  {
    TwoCopies(w.peer.expected, payload);
    FirstCopy(w, payload, [LinkReceives([])] + ([Local(TriggerNextFrame, [])] + ([PeerReceives] + [])));
    DuplicateLinks(w, payload);
    SecondCopy(ReportedLate(w, payload), payload);
  }

  // ---------- Duplicates without any timer ----------

  // Here it is the peer that ends the wait, before the payload arrives there.
  function InterruptedActs(expected: uint8, payload: Payload, f: HdlcFrame): seq<Act>
    requires expected < 8
  {
    [Local(SendPayload(payload, true), []),
     PeerSends(f),
     LinkReceives([]),
     PeerReceives,
     PeerSends(RRFrame(Next(expected))),
     LinkReceives([]),
     Local(TriggerNextFrame, []),
     PeerReceives]
  }

  /** The link after an RNR or SREJ with the number of the outstanding frame. */
  function Interrupted(s: Link, f: HdlcFrame): Link {
    Unawaited(if f.frameType == RNR then Stopped(s) else s)
  }

  /** Nothing but the taken slot and the flow of the peer keeps the head from being sent. */
  predicate Held(s: Link, payload: Payload) {
    && s.started && !s.awaitsNextFrame && s.alive == Heard(s.alive) && !s.sendProbe && s.srejs == []
    && s.reliable == [payload]
  }

  lemma SendHolds(s: Link, payload: Payload)
    requires Shape(s) && IdleSession(World(s, Peer(s.sseq, []), [], [], 0))
    ensures var t := SentReliable(Enqueued(s, payload, true));
      Held(t, payload) && t.waitForAck && FlowFree(t) && t.sseq == s.sseq
  {
  }

  lemma FlowEndsWait(s: Link, payload: Payload, f: HdlcFrame)
    requires Shape(s) && Held(s, payload) && s.waitForAck && FlowFree(s) && (f == RNRFrame(s.sseq) || f == SREJFrame(s.sseq))
    ensures Receive(s, f, false, []).link == Interrupted(s, f)
  {
  }

  lemma LateReport(s: Link, payload: Payload, r: uint8)
    requires Shape(s) && Held(s, payload) && !s.waitForAck && s.timer == Off
    ensures Receive(s, RRFrame(r), false, []).link == s.(peerStoppedFlow := false, sseq := r)
  {
  }

  lemma PeerSays(w: World, f: HdlcFrame)
    requires MaySend(w.peer, f) && w.up == []
    ensures Leads(w, PeerSends(f), w.(up := [f]))
  {
  }

  lemma LinkHears(w: World, f: HdlcFrame, t: Link)
    requires w.up == [f] && f.sseq < 8 && w.link.started && Inv(w.link)
    requires t == Receive(w.link, f, false, []).link && t.log.sent == w.link.log.sent
    ensures Leads(w, LinkReceives([]),
                  w.(link := t, up := [], orphans := w.orphans + (if Orphan(w.link, f) then 1 else 0)))
  {
    assert w.down + [] == w.down;
  }

  /** The peer sends a frame, the link takes it, and nothing goes out. */
  lemma PeerTells(w: World, f: HdlcFrame, t: Link, rest: seq<Act>)
    requires Good(w) && w.up == [] && MaySend(w.peer, f) && w.link.started && !Orphan(w.link, f)
    requires t == Receive(w.link, f, false, []).link && t.log.sent == w.link.log.sent
    ensures var v := w.(link := t);
      Good(v) && Play(w, [PeerSends(f)] + ([LinkReceives([])] + rest)) == Play(v, rest)
  {
    var u := w.(up := [f]);
    PeerSays(w, f);
    PlayStep(w, PeerSends(f), [LinkReceives([])] + rest, u);
    LinkHears(u, f, t);
    PlayStep(u, LinkReceives([]), rest, w.(link := t));
  }

  /** The peer has the payload; the wait was ended before. */
  lemma InterruptedOnce(w: World, payload: Payload, f: HdlcFrame, rest: seq<Act>)
    requires Good(w) && IdleSession(w) && (f == RNRFrame(w.peer.expected) || f == SREJFrame(w.peer.expected))
    ensures var s := Interrupted(SentReliable(Enqueued(w.link, payload, true)), f);
      var v := w.(link := s, peer := Peer(Next(w.peer.expected), w.peer.accepted + [payload]));
      && Good(v)
      && Play(w, [Local(SendPayload(payload, true), [])] + ([PeerSends(f)] + ([LinkReceives([])] + ([PeerReceives] + rest))))
         == Play(v, rest)
  {
    var e := w.peer.expected;
    var s := SentReliable(Enqueued(w.link, payload, true));
    var w1 := w.(link := s, down := [IFrame(e, w.link.rseq, payload)]);
    DuplicateSent(w, payload);
    PlayStep(w, Local(SendPayload(payload, true), []), [PeerSends(f)] + ([LinkReceives([])] + ([PeerReceives] + rest)), w1);
    SendHolds(w.link, payload);
    FlowEndsWait(s, payload, f);
    var w3 := w1.(link := Interrupted(s, f));
    PeerTells(w1, f, w3.link, [PeerReceives] + rest);
    PeerTakes(w3, w.link.rseq, payload);
    PlayStep(w3, PeerReceives, rest, w3.(peer := Peer(Next(e), w.peer.accepted + [payload]), down := []));
  }

  /** The report comes too late, and the payload goes out again under the next number. */
  lemma InterruptedTwice(w: World, payload: Payload)
    requires Good(w) && Ahead(w) && w.up == [] && w.down == []
    requires Held(w.link, payload) && !w.link.waitForAck && w.link.timer == Off
    ensures var w' := Play(w, [PeerSends(RRFrame(w.peer.expected))] + ([LinkReceives([])]
                            + ([Local(TriggerNextFrame, [])] + ([PeerReceives] + []))));
      && w'.link.log.enqueued == w.link.log.enqueued && w'.orphans == w.orphans + 1
      && w'.peer.accepted == w.peer.accepted + [payload]
  {
    var e := w.peer.expected;
    var rest := [Local(TriggerNextFrame, [])] + ([PeerReceives] + []);
    var w1 := w.(up := [RRFrame(e)]);
    PeerReports(w);
    PlayStep(w, PeerSends(RRFrame(e)), [LinkReceives([])] + rest, w1);
    var w2 := w.(link := w.link.(peerStoppedFlow := false, sseq := e), orphans := w.orphans + 1);
    LateReport(w.link, payload, e);
    LinkHears(w1, RRFrame(e), w2.link);
    PlayStep(w1, LinkReceives([]), rest, w2);
    HeadAgain(w2, payload);
  }

  lemma InterruptedHolds(s: Link, payload: Payload, f: HdlcFrame)
    requires Held(s, payload)
    ensures var t := Interrupted(s, f);
      && Held(t, payload) && !t.waitForAck && t.timer == Off && t.sseq == s.sseq
      && t.log.enqueued == s.log.enqueued
  {
  }

  lemma InterruptedSplit(e: uint8, payload: Payload, f: HdlcFrame)
    requires e < 8
    ensures InterruptedActs(e, payload, f)
         == [Local(SendPayload(payload, true), [])] + ([PeerSends(f)] + ([LinkReceives([])] + ([PeerReceives]
          + ([PeerSends(RRFrame(Next(e)))] + ([LinkReceives([])]
          + ([Local(TriggerNextFrame, [])] + ([PeerReceives] + [])))))))
  {
  }

  /** An RNR or SREJ that crosses the payload does the same, without any timer. */
  lemma DuplicateByFlowControl(w: World, payload: Payload, f: HdlcFrame)
    requires Good(w) && IdleSession(w) && (f == RNRFrame(w.peer.expected) || f == SREJFrame(w.peer.expected))
    ensures var w' := Play(w, InterruptedActs(w.peer.expected, payload, f));
      && w'.link.log.enqueued == w.link.log.enqueued + [payload]
      && w'.peer.accepted == w.peer.accepted + [payload] + [payload]
      && w'.orphans == w.orphans + 1
  {
    var e := w.peer.expected;
    var s := SentReliable(Enqueued(w.link, payload, true));
    InterruptedSplit(e, payload, f);
    InterruptedOnce(w, payload, f, [PeerSends(RRFrame(Next(e)))] + ([LinkReceives([])]
                                  + ([Local(TriggerNextFrame, [])] + ([PeerReceives] + []))));
    SendHolds(w.link, payload);
    InterruptedHolds(s, payload, f);
    InterruptedTwice(w.(link := Interrupted(s, f), peer := Peer(Next(e), w.peer.accepted + [payload])), payload);
  }

  // ---------- Idle points ----------

  // Idle points exist: the peer answers the first probe with any frame.
  const WAKING_ACTS := [Local(TriggerNextFrame, []), PeerReceives, PeerSends(UA_FRAME), LinkReceives([])]

  lemma WakingLink()
    ensures Opening(NEW_LINK, []) == World(BOOTED, Peer(0, []), [TEST_FRAME], [], 0)
    ensures Trigger(BOOTED, []).link == BOOTED.(awaitsNextFrame := true)
    ensures Receive(BOOTED.(awaitsNextFrame := true), UA_FRAME, false, []).link == AWAKE
  {
    BootSteps();
    WakeStep();
    assert Fresh(NEW_LINK) == NEW_LINK;
  }

  lemma WakingTrigger()
    ensures var w := World(BOOTED, Peer(0, []), [TEST_FRAME], [], 0);
      Leads(w, Local(TriggerNextFrame, []), w.(link := BOOTED.(awaitsNextFrame := true)))
  {
    var w := World(BOOTED, Peer(0, []), [TEST_FRAME], [], 0);
    WakingLink();
    assert w.down + [] == w.down;
    if Good(w) {
      HappenLocally(w, TriggerNextFrame, BOOTED.(awaitsNextFrame := true), []);
    }
  }

  lemma WakingReceive()
    ensures var w := World(BOOTED.(awaitsNextFrame := true), Peer(0, []), [], [UA_FRAME], 0);
      Leads(w, LinkReceives([]), w.(link := AWAKE, up := []))
  {
    WakingLink();
  }

  lemma PeerTakesTest(w: World)
    requires w.down == [TEST_FRAME]
    ensures Leads(w, PeerReceives, w.(down := []))
  {
  }

  lemma PeerAnswers(w: World)
    requires w.peer.expected < 8 && w.up == []
    ensures Leads(w, PeerSends(UA_FRAME), w.(up := [UA_FRAME]))
  {
  }

  lemma WakingActs()
    ensures WAKING_ACTS == [WAKING_ACTS[0]] + ([WAKING_ACTS[1]] + ([WAKING_ACTS[2]] + ([WAKING_ACTS[3]] + [])))
  {
  }

  lemma IdleReachable()
    ensures IdleSession(Play(Opening(NEW_LINK, []), WAKING_ACTS))
  {
    WakingLink();
    WakingActs();
    var acts := WAKING_ACTS;
    var w0 := World(BOOTED, Peer(0, []), [TEST_FRAME], [], 0);
    var w1 := w0.(link := BOOTED.(awaitsNextFrame := true));
    var w2 := w1.(down := []);
    var w3 := w2.(up := [UA_FRAME]);
    WakingTrigger();
    PlayStep(w0, acts[0], [acts[1]] + ([acts[2]] + ([acts[3]] + [])), w1);
    PeerTakesTest(w1);
    PlayStep(w1, acts[1], [acts[2]] + ([acts[3]] + []), w2);
    PeerAnswers(w2);
    PlayStep(w2, acts[2], [acts[3]] + [], w3);
    WakingReceive();
    PlayStep(w3, acts[3], [], w3.(link := AWAKE, up := []));
  }
}
