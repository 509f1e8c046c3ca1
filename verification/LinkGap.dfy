/** Which missing frames are requested again. */
module LinkGaps {
  import opened HdlcFrames
  import opened AliveStates
  import opened Links
  import opened LinkInvariants
  import opened LinkTheorems

  /** The list names exactly the missing frames, in order: N(S) - expected of them
      modulo 8, from the expected one up to the one before the one that arrived. */
  lemma GapIsMissing(r: uint8, s: uint8)
    requires r < 8 && s < 8 && r != s
    ensures var gap := GapList(r, s);
      && 1 <= |gap| <= 7 && (r + |gap|) % 8 == s
      && (forall i :: 0 <= i < |gap| ==> gap[i] % 8 == (r + i) % 8 && gap[i] % 8 != s && gap[i] < 15)
      && (forall i, j :: 0 <= i < j < |gap| ==> gap[i] % 8 != gap[j] % 8)
  {
    var gap := GapList(r, s);
    var n := (s + 8 - r) % 8;
    assert n == if s >= r then s - r else s + 8 - r;
    forall i | 0 <= i < |gap|
      ensures gap[i] == r + i && gap[i] % 8 != s
    {
      assert r + i < r + n;
    }
    forall i, j | 0 <= i < j < |gap|
      ensures gap[i] % 8 != gap[j] % 8
    {
      NoAlias(gap[i], gap[j]);
    }
  }

  lemma NoAlias(a: nat, b: nat)
    requires a < b < a + 8
    ensures a % 8 != b % 8
  {
  }

  /** An information frame with payload that is not the expected one. */
  predicate Unexpected(s: Link, e: LinkEvent) {
    && e.Deliver? && s.started && !e.invalid
    && e.frame.IsIFrame() && e.frame.HasPayload() && e.frame.sseq != s.rseq
  }

  /** Such a frame makes a new list, from the expected number to its own; a start or
      stop clears the list, and nothing else touches it. */
  function GapAfter(s: Link, e: LinkEvent, gap: seq<uint8>): seq<uint8>
    requires s.rseq < 8 && Enabled(s, e)
  {
    if Unexpected(s, e) then GapList(s.rseq, e.frame.sseq)
    else if Clears(s, e) then []
    else gap
  }

  predicate Clears(s: Link, e: LinkEvent) {
    e.StartLink? || (e.StopLink? && s.started)
  }

  /** How many SREJs had been sent before the latest list was made or cleared. */
  function EarlierAfter(s: Link, e: LinkEvent, earlier: nat): nat {
    if Unexpected(s, e) || Clears(s, e) then |SrejNumbers(s.log.sent)| else earlier
  }

  predicate SameGap(s: Link, t: Link) {
    t.log.gap == s.log.gap && t.log.requestedBefore == s.log.requestedBefore
  }

  /** What an event does to the list and to the count. */
  predicate GapStep(s: Link, e: LinkEvent, t: Link)
    requires s.rseq < 8 && Enabled(s, e)
  {
    && t.log.gap == GapAfter(s, e, s.log.gap)
    && |t.log.requestedBefore| == EarlierAfter(s, e, |s.log.requestedBefore|)
  }

  lemma AckedGap(s: Link, r: uint8)
    requires Safe(s)
    ensures SameGap(s, AckedUpTo(s, r))
  {
  }

  lemma RestartedGap(s: Link)
    requires Safe(s)
    ensures SameGap(s, Restarted(s)) && Safe(Restarted(s))
  {
  }

  lemma RRGap(s: Link, r: uint8)
    requires Safe(s)
    ensures Safe(Restarted(s)) && SameGap(s, AckedUpTo(Restarted(s), r))
  {
    RestartedGap(s);
    AckedGap(Restarted(s), r);
  }

  lemma RnrGap(s: Link, r: uint8)
    requires Safe(s)
    ensures SameGap(s, AckedByRNR(s, r))
  {
  }

  lemma RejectedGap(s: Link, r: uint8)
    ensures SameGap(s, RejectedFrom(s, r)) && SameGap(s, RequestedAgain(s, r))
  {
  }

  lemma AcknowledgedGap(s: Link, f: HdlcFrame, t: Link)
    requires Safe(s) && t == Acknowledged(s, f)
    ensures SameGap(s, t)
  {
    match f.frameType {
      case I => AckedGap(s, f.rseq);
      case RR => RRGap(s, f.rseq);
      case RNR => RnrGap(s, f.rseq);
      case REJ => RejectedGap(s, f.rseq);
      case SREJ => RejectedGap(s, f.rseq);
      case _ =>
    }
  }

  lemma NewGapCounts(s: Link, gap: seq<uint8>)
    requires Inv(s)
    ensures |NewGap(s.log, gap).requestedBefore| == |SrejNumbers(s.log.sent)|
  {
  }

  lemma NotedLog(s: Link, f: HdlcFrame)
    requires s.rseq < 8 && f.sseq < 8
    ensures Noted(s, f).log == if f.HasPayload() && f.IsIFrame() && s.rseq != f.sseq
                               then NewGap(s.log, GapList(s.rseq, f.sseq)) else s.log
  {
  }

  lemma NotedGap(s: Link, f: HdlcFrame)
    requires Inv(s) && s.started && f.sseq < 8 && f.rseq < 8
    ensures GapStep(s, LinkEvent.Deliver(f, false), Noted(s.(alive := Heard(s.alive)), f))
  {
    NotedLog(s.(alive := Heard(s.alive)), f);
    if Unexpected(s, LinkEvent.Deliver(f, false)) {
      NewGapCounts(s, GapList(s.rseq, f.sseq));
    }
  }

  lemma FrameGap(s: Link, f: HdlcFrame, invalid: bool)
    requires Inv(s) && f.sseq < 8 && f.rseq < 8
    ensures GapStep(s, LinkEvent.Deliver(f, invalid), AfterFrame(s, f, invalid))
  {
    if s.started && !invalid {
      NotedGap(s, f);
      AcknowledgedGap(Noted(s.(alive := Heard(s.alive)), f), f, Interpreted(s, f));
    }
  }

  lemma TriggerGap(s: Link)
    ensures SameGap(s, AfterTrigger(s))
  {
  }

  lemma UnawaitedGap(s: Link)
    ensures SameGap(s, Unawaited(s))
  {
  }

  lemma ExpiryGap(s: Link)
    ensures SameGap(s, AfterExpiry(s))
  {
    if s.timer == Retransmit {
      UnawaitedGap(s);
    }
  }

  lemma ProbeTimeoutGap(s: Link)
    ensures SameGap(s, AfterProbeTimeout(s))
  {
  }

  lemma PreparedGap(s: Link, e: LinkEvent)
    requires Inv(s) && Enabled(s, e)
    ensures GapStep(s, e, Prepared(s, e))
  {
    match e {
      case SendPayload(_, _) =>
      case Deliver(f, invalid) => FrameGap(s, f, invalid);
      case StartLink =>
      case StopLink =>
      case TriggerNextFrame => TriggerGap(s);
      case TimerExpired => ExpiryGap(s);
      case ProbeTimedOut => ProbeTimeoutGap(s);
      case StateTimedOut =>
    }
  }

  /** The list of missing frames after any event, and how many requests precede it. */
  lemma StepGap(s: Link, e: LinkEvent, script: seq<ClientAction>)
    requires Inv(s) && Enabled(s, e)
    ensures GapStep(s, e, Step(s, e, script).link)
  {
    PreparedGap(s, e);
    StepDisciplined(s, e, script);
  }

  /** The list that the latest unexpected frame of a run has made, and how many SREJs
      the run had sent by then. */
  function LatestGap(s: Link, moves: seq<Move>, gap: seq<uint8>, earlier: nat): (seq<uint8>, nat)
    requires Inv(s)
    decreases |moves|
  {
    if moves == [] then (gap, earlier)
    else if Enabled(s, moves[0].event) then
      var e := moves[0].event;
      StepKeeps(s, e, moves[0].script);
      LatestGap(Step(s, e, moves[0].script).link, moves[1..], GapAfter(s, e, gap), EarlierAfter(s, e, earlier))
    else LatestGap(s, moves[1..], gap, earlier)
  }

  lemma {:induction false} GapInRuns(s: Link, moves: seq<Move>)
    requires Inv(s)
    ensures var log := Exec(s, moves).log;
      (log.gap, |log.requestedBefore|) == LatestGap(s, moves, s.log.gap, |s.log.requestedBefore|)
    decreases |moves|
  {
    if moves != [] {
      if Enabled(s, moves[0].event) {
        StepGap(s, moves[0].event, moves[0].script);
        StepKeeps(s, moves[0].event, moves[0].script);
        GapInRuns(Step(s, moves[0].event, moves[0].script).link, moves[1..]);
      } else {
        GapInRuns(s, moves[1..]);
      }
    }
  }

  /** In every run: the requests sent since the last unexpected frame or restart are a
      prefix, in order, of the list of frames that were missing then, and the rest of
      that list is what is still to be requested. */
  lemma RequestsFollowTheGap(moves: seq<Move>)
    ensures var t := Exec(NEW_LINK, moves); var (gap, earlier) := LatestGap(NEW_LINK, moves, [], 0);
      && earlier <= |SrejNumbers(t.log.sent)|
      && gap == SrejNumbers(t.log.sent)[earlier..] + t.srejs
  {
    GapInRuns(NEW_LINK, moves);
    var log := Exec(NEW_LINK, moves).log;
    assert SrejNumbers(log.sent)[|log.requestedBefore|..] == log.requested;
  }

  // ---------- Empty information frames ----------

  /** A valid information frame without payload is not taken notice of: it moves neither
      the expected number nor the list, and no acknowledgement becomes due.  With payload
      it does all that its number asks for. */
  lemma EmptyUnnoticed(s: Link, f: HdlcFrame, script: seq<ClientAction>)
    requires Inv(s) && s.started && f.sseq < 8 && f.rseq < 8 && f.IsIFrame()
    ensures var p := Interpreted(s, f);
      && p.rseq == (if f.payload == [] then s.rseq else (f.sseq + 1) % 8)
      && p.peerRequiresAck == (s.peerRequiresAck || f.payload != [])
      && p.srejs == (if f.payload == [] || f.sseq == s.rseq then s.srejs else GapList(s.rseq, f.sseq))
    ensures Receive(s, f, false, script).link.rseq == Interpreted(s, f).rseq
  {
    AckedReceiver(Noted(s.(alive := Heard(s.alive)), f), f.rseq);
    OpportunityDisciplined(Interpreted(s, f), script);
  }

  lemma AckedReceiver(s: Link, r: uint8)
    requires Safe(s)
    ensures var t := AckedUpTo(s, r);
      t.rseq == s.rseq && t.peerRequiresAck == s.peerRequiresAck && t.srejs == s.srejs
  {
  }
}
