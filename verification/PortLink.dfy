/** The protocol as the serial port handler sees it. */
module PortLink {
  import opened HdlcFrames
  import opened AliveStates
  import opened Links
  import opened LinkInvariants
  import opened LinkTheorems

  /** What the port knows of the protocol: whether it runs, and whether it is alive. */
  datatype Sight = Sight(started: bool, alive: bool)

  function See(s: Link): Sight {
    Sight(s.started, s.alive.IsAlive())
  }

  /** The changes that the events of module Ports allow for. */
  predicate Foreseen(before: Sight, e: LinkEvent, after: Sight) {
    match e
    case StartLink => after == Sight(true, false)
    case StopLink => after == Sight(false, false)
    case Deliver(_, invalid) =>
      after == Sight(before.started, before.alive || (before.started && !invalid))
    case StateTimedOut => after.started == before.started && (after.alive ==> before.alive)
    case _ => after == before
  }

  lemma FrameForeseen(s: Link, f: HdlcFrame, invalid: bool)
    requires Safe(s) && s.rseq < 8 && f.sseq < 8
    ensures See(AfterFrame(s, f, invalid)) == Sight(s.started, s.alive.IsAlive() || (s.started && !invalid))
  {
  }

  lemma StopForeseen(s: Link)
    requires Shape(s)
    ensures See(Stop(s)) == Sight(false, false)
  {
  }

  lemma UnawaitedForeseen(s: Link)
    ensures See(Unawaited(s)) == See(s)
  {
  }

  lemma ExpiryForeseen(s: Link)
    ensures See(AfterExpiry(s)) == See(s)
  {
    if s.timer == Retransmit {
      UnawaitedForeseen(s);
    }
  }

  lemma TriggerForeseen(s: Link)
    ensures See(AfterTrigger(s)) == See(s)
  {
  }

  lemma ProbeTimeoutForeseen(s: Link)
    ensures See(AfterProbeTimeout(s)) == See(s)
  {
  }

  lemma PreparedForeseen(s: Link, e: LinkEvent)
    requires Inv(s) && Enabled(s, e)
    ensures Foreseen(See(s), e, See(Prepared(s, e)))
  {
    match e
    case SendPayload(_, _) =>
    case TriggerNextFrame => TriggerForeseen(s);
    case Deliver(f, invalid) => FrameForeseen(s, f, invalid);
    case TimerExpired => ExpiryForeseen(s);
    case StateTimedOut =>
    case ProbeTimedOut => ProbeTimeoutForeseen(s);
    case StartLink =>
    case StopLink => StopForeseen(s);
  }

  lemma StepKeepsSight(s: Link, e: LinkEvent, script: seq<ClientAction>)
    requires Inv(s) && Enabled(s, e)
    ensures See(Step(s, e, script).link) == See(Prepared(s, e))
  {
    StepDisciplined(s, e, script);
  }

  /** Only starting, stopping, valid frames and the state timer change what the port
      knows of the protocol; the state timer can only end liveness, and the baud rate
      changes only while a started link is not alive. */
  lemma PortEventsSuffice(s: Link, e: LinkEvent, script: seq<ClientAction>)
    requires Inv(s) && Enabled(s, e)
    ensures Foreseen(See(s), e, See(Step(s, e, script).link))
    ensures e.ProbeTimedOut? && ChangesRate(s.alive, ProbeTimeout) ==> See(s) == Sight(true, false)
  {
    PreparedForeseen(s, e);
    StepKeepsSight(s, e, script);
  }
}
