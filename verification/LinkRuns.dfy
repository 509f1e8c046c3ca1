/** Concrete runs, event by event, and how every one of them starts. */
module LinkRuns {
  import opened HdlcFrames
  import opened AliveStates
  import opened Links
  import opened LinkInvariants
  import opened LinkTheorems

  lemma ExecStep(s: Link, m: Move, rest: seq<Move>, t: Link)
    requires Inv(s) && Enabled(s, m.event) && t == Step(s, m.event, m.script).link
    ensures Inv(t) && Exec(s, [m] + rest) == Exec(t, rest)
  {
    StepKeeps(s, m.event, m.script);
    assert ([m] + rest)[1..] == rest;
  }

  lemma ExecAt(s: Link, moves: seq<Move>, i: nat, t: Link)
    requires i < |moves| && Inv(s) && Enabled(s, moves[i].event) && t == Step(s, moves[i].event, moves[i].script).link
    ensures Inv(t) && Exec(s, moves[i..]) == Exec(t, moves[i + 1..])
  {
    ExecStep(s, moves[i], moves[i + 1..], t);
    assert moves[i..] == [moves[i]] + moves[i + 1..];
  }

  const PAYLOAD: Payload := [0]
  const UA_FRAME := HdlcFrame(LINK_ADDRESS, UA, false, 0, 0, [])

  /** The link starts, its probe is written to the line, and the device answers. */
  const WAKING_MOVES: seq<Move> := [
    Move(StartLink, []),
    Move(TriggerNextFrame, []),
    Move(Deliver(UA_FRAME, false), [])]

  const BOOTED: Link :=
    NEW_LINK.(started := true, awaitsNextFrame := false, log := NO_LOG.(sent := [TEST_FRAME]))

  const AWAKE: Link :=
    NEW_LINK.(started := true, alive := Heard(ALIVE_RESET), log := NO_LOG.(sent := [TEST_FRAME]))

  lemma BootSteps()
    ensures Start(NEW_LINK, []).link == BOOTED
    ensures Trigger(BOOTED, []).link == BOOTED.(awaitsNextFrame := true)
  {
  }

  lemma WakeStep()
    ensures Receive(BOOTED.(awaitsNextFrame := true), UA_FRAME, false, []).link == AWAKE
  {
    assert Interpreted(BOOTED.(awaitsNextFrame := true), UA_FRAME) == AWAKE;
    assert Query(AWAKE, []).link == AWAKE;
  }

  /** The first payload has been handed over, and the slot is taken. */
  const GREETED: Link := SentUnreliable(Enqueued(AWAKE, PAYLOAD, false))

  /** Everything is at rest on a live link, but the slot is taken. */
  predicate HoldsSlot(s: Link) {
    && s.started && !s.awaitsNextFrame && s.alive == Heard(s.alive) && s.sseq == 0 && s.rseq == 0
    && !s.waitForAck && s.timer == Off && !s.sendProbe && !s.peerRequiresAck
    && !s.peerStoppedFlow && !s.peerStoppedFlowNew && !s.peerStoppedFlowQueried
    && s.srejs == [] && s.reliable == [] && s.unreliable == []
  }

  lemma GreetedHoldsSlot()
    ensures HoldsSlot(GREETED)
  {
  }

  /** Any run that starts like this. */
  lemma Wakes(ms: seq<Move>)
    requires |ms| >= 3 && ms[0] == WAKING_MOVES[0] && ms[1] == WAKING_MOVES[1] && ms[2] == WAKING_MOVES[2]
    ensures Inv(AWAKE) && Exec(NEW_LINK, ms) == Exec(AWAKE, ms[3..])
  {
    assert ms[0..] == ms;
    BootSteps();
    ExecAt(NEW_LINK, ms, 0, BOOTED);
    ExecAt(BOOTED, ms, 1, BOOTED.(awaitsNextFrame := true));
    WakeStep();
    ExecAt(BOOTED.(awaitsNextFrame := true), ms, 2, AWAKE);
  }

  lemma Greets(ms: seq<Move>)
    requires |ms| >= 4 && ms[0] == WAKING_MOVES[0] && ms[1] == WAKING_MOVES[1] && ms[2] == WAKING_MOVES[2]
    requires ms[3] == Move(SendPayload(PAYLOAD, false), [])
    ensures Inv(GREETED) && HoldsSlot(GREETED) && Exec(NEW_LINK, ms) == Exec(GREETED, ms[4..])
  {
    Wakes(ms);
    ExecAt(AWAKE, ms, 3, GREETED);
    GreetedHoldsSlot();
  }
}
