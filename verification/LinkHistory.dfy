/** What the link knows of its peer, told from the events alone.

  The history of a run is folded from its events without looking at the link: whether it
  runs, the number it expects, the number its next information frame gets, whether the
  peer stopped the flow, and what its liveness has seen since the last start.
 */
module LinkHistories {
  import opened HdlcFrames
  import opened FrameGenerator
  import opened AliveStates
  import opened Links
  import opened LinkInvariants
  import opened LinkTheorems
  import opened LinkFrames
  import opened LinkGaps

  datatype History = History(running: bool, expected: uint8, next: uint8, stopped: bool, seen: seq<Event>)

  const NO_HISTORY := History(false, 0, 0, false, [])

  /** A frame that passed its check, while the link runs. */
  function Heeding(h: History, f: HdlcFrame): History
    requires f.sseq < 8 && f.rseq < 8
  {
    History(
      h.running,
      if f.frameType == I && f.payload != [] then (f.sseq + 1) % 8 else h.expected,
      match f.frameType {
        case I => f.rseq
        case RR => f.rseq
        case RNR => f.rseq
        case REJ => if f.rseq == 0 then 7 else f.rseq - 1
        case _ => h.next
      },
      match f.frameType {
        case RNR => true
        case RR => false
        case REJ => false
        case SREJ => false
        case _ => h.stopped
      },
      h.seen + [FrameReceived])
  }

  function Goes(h: History, e: LinkEvent): History {
    match e
    case StartLink => NO_HISTORY.(running := true)
    case StopLink => if h.running then NO_HISTORY else h
    case Deliver(f, invalid) =>
      if h.running && !invalid && f.sseq < 8 && f.rseq < 8 then Heeding(h, f) else h
    case StateTimedOut => if h.running then h.(seen := h.seen + [StateTimeout]) else h
    case ProbeTimedOut => if h.running then h.(seen := h.seen + [ProbeTimeout]) else h
    case _ => h
  }

  function HistoryFrom(h: History, moves: seq<Move>): History
    decreases |moves|
  {
    if moves == [] then h else HistoryFrom(Goes(h, moves[0].event), moves[1..])
  }

  function HistoryOf(moves: seq<Move>): History {
    HistoryFrom(NO_HISTORY, moves)
  }

  /** The link agrees with a history. */
  predicate Fits(s: Link, h: History) {
    && s.started == h.running && s.rseq == h.expected && s.sseq == h.next
    && s.peerStoppedFlow == h.stopped && s.alive == After(h.seen)
  }

  lemma SeenMore(seen: seq<Event>, e: Event)
    ensures After(seen + [e]) == React(After(seen), e)
  {
    assert (seen + [e])[..|seen|] == seen;
  }

  // ---------- One event ----------

  /** The numbers and the flow after a frame, in terms of those before. */
  predicate Numbered(s: Link, f: HdlcFrame, t: Link)
    requires f.sseq < 8 && f.rseq < 8
  {
    var h := Heeding(History(s.started, s.rseq, s.sseq, s.peerStoppedFlow, []), f);
    t.sseq == h.next && t.peerStoppedFlow == h.stopped
  }

  lemma AckedNumbered(s: Link, f: HdlcFrame)
    requires Safe(s) && f.sseq < 8 && f.rseq < 8 && f.frameType == I
    ensures Numbered(s, f, AckedUpTo(s, f.rseq))
  {
  }

  lemma RRNumbered(s: Link, f: HdlcFrame)
    requires Safe(s) && f.sseq < 8 && f.rseq < 8 && f.frameType == RR
    ensures Numbered(s, f, AckedUpTo(Restarted(s), f.rseq))
  {
  }

  lemma StoppedNumbered(s: Link, f: HdlcFrame)
    requires Safe(s) && f.sseq < 8 && f.rseq < 8 && f.frameType == RNR
    ensures Numbered(s, f, AckedByRNR(s, f.rseq))
  {
  }

  lemma RejectedNumbered(s: Link, f: HdlcFrame)
    requires f.sseq < 8 && f.rseq < 8 && f.frameType == REJ
    ensures Numbered(s, f, RejectedFrom(s, f.rseq))
  {
  }

  lemma RequestedNumbered(s: Link, f: HdlcFrame)
    requires f.sseq < 8 && f.rseq < 8 && f.frameType == SREJ
    ensures Numbered(s, f, RequestedAgain(s, f.rseq))
  {
  }

  lemma AcknowledgedNumbered(s: Link, f: HdlcFrame)
    requires Safe(s) && f.sseq < 8 && f.rseq < 8
    ensures Numbered(s, f, Acknowledged(s, f))
  {
    match f.frameType {
      case I => AckedNumbered(s, f);
      case RR => RRNumbered(s, f);
      case RNR => StoppedNumbered(s, f);
      case REJ => RejectedNumbered(s, f);
      case SREJ => RequestedNumbered(s, f);
      case _ =>
    }
  }

  lemma AckedExpects(s: Link, r: uint8)
    requires Safe(s)
    ensures Restarted(s).rseq == s.rseq && AckedUpTo(s, r).rseq == s.rseq
  {
  }

  lemma StoppedExpects(s: Link, r: uint8)
    requires Safe(s)
    ensures AckedByRNR(s, r).rseq == s.rseq
  {
  }

  lemma RejectedExpects(s: Link, r: uint8)
    ensures RejectedFrom(s, r).rseq == s.rseq
  {
    assert Restarted(s).rseq == s.rseq && Unawaited(Restarted(s)).rseq == s.rseq;
  }

  lemma RequestedExpects(s: Link, r: uint8)
    ensures RequestedAgain(s, r).rseq == s.rseq
  {
    assert Restarted(s).rseq == s.rseq && Unawaited(Restarted(s)).rseq == s.rseq;
  }

  lemma AcknowledgedExpects(s: Link, f: HdlcFrame)
    requires Safe(s)
    ensures Acknowledged(s, f).rseq == s.rseq
  {
    match f.frameType {
      case I => AckedExpects(s, f.rseq);
      case RR =>
        AckedExpects(s, f.rseq);
        AckedExpects(Restarted(s), f.rseq);
      case RNR => StoppedExpects(s, f.rseq);
      case REJ => RejectedExpects(s, f.rseq);
      case SREJ => RequestedExpects(s, f.rseq);
      case _ =>
    }
  }

  lemma NotedExpects(s: Link, f: HdlcFrame)
    requires s.rseq < 8 && f.sseq < 8
    ensures Noted(s, f).rseq == if f.frameType == I && f.payload != [] then (f.sseq + 1) % 8 else s.rseq
  {
  }

  lemma FrameFits(s: Link, h: History, f: HdlcFrame)
    requires Inv(s) && Fits(s, h) && h.running && f.sseq < 8 && f.rseq < 8
    ensures Fits(Interpreted(s, f), Heeding(h, f))
  {
    var t := s.(alive := Heard(s.alive));
    NotedExpects(t, f);
    AcknowledgedNumbered(Noted(t, f), f);
    AcknowledgedExpects(Noted(t, f), f);
    SeenMore(h.seen, FrameReceived);
  }

  lemma OthersFit(s: Link, h: History)
    requires Fits(s, h)
    ensures Fits(AfterTrigger(s), h) && Fits(Unawaited(s), h)
  {
  }

  lemma ExpiryFits(s: Link, h: History)
    requires Fits(s, h)
    ensures Fits(AfterExpiry(s), h)
  {
    OthersFit(s, h);
  }

  lemma ProbeTimeoutFits(s: Link, h: History)
    requires Fits(s, h) && s.started
    ensures Fits(AfterProbeTimeout(s), Goes(h, ProbeTimedOut))
  {
    SeenMore(h.seen, ProbeTimeout);
  }

  lemma PreparedFits(s: Link, h: History, e: LinkEvent)
    requires Inv(s) && Fits(s, h) && Enabled(s, e)
    ensures Fits(Prepared(s, e), Goes(h, e))
  {
    match e
    case SendPayload(_, _) =>
    case TriggerNextFrame => OthersFit(s, h);
    case Deliver(f, invalid) =>
      if s.started && !invalid {
        FrameFits(s, h, f);
      }
    case TimerExpired => ExpiryFits(s, h);
    case StateTimedOut => SeenMore(h.seen, StateTimeout);
    case ProbeTimedOut => ProbeTimeoutFits(s, h);
    case StartLink =>
    case StopLink => StopFits(s, h);
  }

  lemma StopFits(s: Link, h: History)
    requires Inv(s) && Fits(s, h)
    ensures Fits(Stop(s), Goes(h, StopLink))
  {
  }

  lemma StepFits(s: Link, h: History, e: LinkEvent, script: seq<ClientAction>)
    requires Inv(s) && Fits(s, h) && Enabled(s, e)
    ensures Fits(Step(s, e, script).link, Goes(h, e))
  {
    PreparedFits(s, h, e);
    StepDisciplined(s, e, script);
  }

  lemma DisabledIsNothing(s: Link, h: History, e: LinkEvent)
    requires Fits(s, h) && !Enabled(s, e)
    ensures Goes(h, e) == h
  {
  }

  // ---------- Runs ----------

  lemma {:induction false} ExecFits(s: Link, h: History, moves: seq<Move>)
    requires Inv(s) && Fits(s, h)
    ensures Fits(Exec(s, moves), HistoryFrom(h, moves))
    decreases |moves|
  {
    if moves != [] {
      var m := moves[0];
      if Enabled(s, m.event) {
        StepFits(s, h, m.event, m.script);
        StepKeeps(s, m.event, m.script);
        ExecFits(Step(s, m.event, m.script).link, Goes(h, m.event), moves[1..]);
      } else {
        DisabledIsNothing(s, h, m.event);
        ExecFits(s, h, moves[1..]);
      }
    }
  }

  /** In every run, with any starts and stops: the numbers, the flow and the liveness of
      the link are those of its history. */
  lemma LinkFollowsHistory(moves: seq<Move>)
    ensures Fits(Exec(NEW_LINK, moves), HistoryOf(moves))
  {
    ExecFits(NEW_LINK, NO_HISTORY, moves);
  }

  lemma {:induction false} HistorySnoc(h: History, moves: seq<Move>, m: Move)
    ensures HistoryFrom(h, moves + [m]) == Goes(HistoryFrom(h, moves), m.event)
    decreases |moves|
  {
    if moves == [] {
      assert moves + [m] == [m] && [m][1..] == [];
    } else {
      assert (moves + [m])[0] == moves[0] && (moves + [m])[1..] == moves[1..] + [m];
      HistorySnoc(Goes(h, moves[0].event), moves[1..], m);
    }
  }

  /** What a frame handed over says of the history of its run. */
  predicate Current(h: History, f: Printable) {
    && f.address == 0x30
    && (f.frameType == I ==> f.sseq == h.next && f.rseq == h.expected && !h.stopped)
    && (f.frameType == RR ==> f.rseq == h.expected && (f.pf ==> h.stopped))
    && (f.frameType != TEST ==> After(h.seen).IsAlive())
    && f.frameType in {TEST, SREJ, I, RR, UI}
  }

  /** Whatever is handed over in a run: an I-frame has the number that the peer asked for
      last, and with every RR it reports the number after that of the last information
      frame with payload since the start.  There is one frame at most per event. */
  lemma FramesAreCurrent(moves: seq<Move>, m: Move)
    requires Enabled(Exec(NEW_LINK, moves), m.event)
    ensures var s := Exec(NEW_LINK, moves); var t := Step(s, m.event, m.script).link;
      && s.log.sent <= t.log.sent && |t.log.sent| <= |s.log.sent| + 1
      && (t.log.sent != s.log.sent ==> Current(HistoryOf(moves + [m]), t.log.sent[|s.log.sent|]))
  {
    var s := Exec(NEW_LINK, moves);
    LinkFollowsHistory(moves);
    HistorySnoc(NO_HISTORY, moves, m);
    PreparedFits(s, HistoryOf(moves), m.event);
    StepSpeaks(s, m.event, m.script);
    StepDisciplined(s, m.event, m.script);
  }

  // ---------- Frames that arrive in order ----------

  /** Every information frame with payload has the number that is expected. */
  predicate InOrder(h: History, moves: seq<Move>)
    decreases |moves|
  {
    moves == [] || (NotAhead(h, moves[0].event) && InOrder(Goes(h, moves[0].event), moves[1..]))
  }

  predicate NotAhead(h: History, e: LinkEvent) {
    h.running && e.Deliver? && !e.invalid && e.frame.frameType == I && e.frame.payload != [] ==>
      e.frame.sseq == h.expected
  }

  lemma {:induction false} OrderRequestsNothing(s: Link, h: History, moves: seq<Move>)
    requires Inv(s) && Fits(s, h) && s.log.gap == [] && InOrder(h, moves)
    ensures Exec(s, moves).srejs == []
    decreases |moves|
  {
    if moves != [] {
      var m := moves[0];
      if Enabled(s, m.event) {
        StepFits(s, h, m.event, m.script);
        StepKeeps(s, m.event, m.script);
        StepGap(s, m.event, m.script);
        OrderRequestsNothing(Step(s, m.event, m.script).link, Goes(h, m.event), moves[1..]);
      } else {
        DisabledIsNothing(s, h, m.event);
        OrderRequestsNothing(s, h, moves[1..]);
      }
    }
  }

  /** After any start, of any link: as long as the data arrives in order, counted from 0,
      nothing is requested again. */
  lemma StartsInOrder(s: Link, script: seq<ClientAction>, moves: seq<Move>)
    requires Inv(s) && InOrder(NO_HISTORY.(running := true), moves)
    ensures Inv(Start(s, script).link)
    ensures Exec(Start(s, script).link, moves).srejs == []
  {
    var t := Start(s, script).link;
    StepKeeps(s, StartLink, script);
    StepGap(s, StartLink, script);
    StartsAfresh(s, script);
    OrderRequestsNothing(t, NO_HISTORY.(running := true), moves);
  }

  // ---------- After a REJ ----------

  lemma RejectedLink(s: Link, f: HdlcFrame)
    requires Inv(s) && f.frameType == REJ && f.sseq < 8 && f.rseq < 8
    ensures var p := Interpreted(s, f);
      && p.waitForAck == (s.waitForAck && f.rseq != s.sseq) && !p.peerStoppedFlow
      && p.sseq == (if f.rseq == 0 then 7 else f.rseq - 1)
      && p.rseq == s.rseq && p.srejs == s.srejs && p.reliable == s.reliable
  {
    var heard := s.(alive := Heard(s.alive));
    assert Noted(heard, f) == heard && Interpreted(s, f) == RejectedFrom(heard, f.rseq);
  }

  /** A REJ that finds nothing else outstanding, or rejects just that, has the head sent
      again at once, with the number before the one in the REJ. */
  lemma RejectedIsResent(s: Link, f: HdlcFrame, script: seq<ClientAction>)
    requires Inv(s) && s.started && f.frameType == REJ && f.sseq < 8 && f.rseq < 8
    requires s.awaitsNextFrame && !s.sendProbe && s.srejs == [] && s.reliable != []
    ensures var t := Receive(s, f, false, script).link;
      if s.waitForAck && f.rseq != s.sseq then IPayloads(t.log.sent) == IPayloads(s.log.sent)
      else t.log.sent == s.log.sent
             + [HdlcFrame(0x30, I, false, s.rseq, if f.rseq == 0 then 7 else f.rseq - 1, s.reliable[0])]
  {
    var p := Interpreted(s, f);
    RejectedLink(s, f);
    OpportunityDisciplined(p, script);
    var t := Opportunity(p, script).link;
    if t.log.sent != p.log.sent {
      SentOneMore(s.log.sent, t.log.sent[|s.log.sent|]);
    }
  }
}
