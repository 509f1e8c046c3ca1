/** What the clients hand over, told from their calls alone. */
module LinkOffers {
  import opened Links
  import opened LinkInvariants
  import opened Stutters
  import opened LinkTheorems
  import opened LinkFrames

  function First(a: ClientAction, reliable: bool): seq<Payload> {
    if a.Offer? && a.reliable == reliable then [a.payload] else []
  }

  /** The payloads of one kind among the clients' actions. */
  function Handed(script: seq<ClientAction>, reliable: bool): seq<Payload> {
    if script == [] then []
    else First(script[0], reliable) + Handed(script[1..], reliable)
  }

  lemma {:induction false} HandedAppend(a: seq<ClientAction>, b: seq<ClientAction>, reliable: bool)
    ensures Handed(a + b, reliable) == Handed(a, reliable) + Handed(b, reliable)
    decreases |a|
  {
    if a == [] {
      assert a + b == b;
    } else {
      assert (a + b)[0] == a[0] && (a + b)[1..] == a[1..] + b;
      HandedAppend(a[1..], b, reliable);
    }
  }

  /** Every payload accepted so far. */
  function Accepted(log: Log, reliable: bool): seq<Payload> {
    if reliable then log.enqueued else log.enqueuedUnreliable
  }

  /** Exactly the offers among the actions taken were accepted, in order. */
  predicate Balanced(s: Link, script: seq<ClientAction>, r: Ran) {
    && |r.script| <= |script| && script[|script| - |r.script|..] == r.script
    && forall reliable :: Accepted(s.log, reliable) + Handed(script, reliable)
                       == Accepted(r.link.log, reliable) + Handed(r.script, reliable)
  }

  lemma BalancedOn(s: Link, script: seq<ClientAction>, r: Ran, q: Ran)
    requires Balanced(s, script, r) && Balanced(r.link, r.script, q)
    ensures Balanced(s, script, q)
  {
    assert q.script == script[|script| - |r.script|..][|r.script| - |q.script|..];
  }

  lemma Regroup<T>(a: seq<T>, b: seq<T>, c: seq<T>)
    ensures a + b + c == a + (b + c)
  {
  }

  lemma EnqueuedAccepts(s: Link, a: ClientAction, reliable: bool)
    requires a.Offer?
    ensures Accepted(Enqueued(s, a.payload, a.reliable).log, reliable) == Accepted(s.log, reliable) + First(a, reliable)
  {
  }

  /** One offer, accepted. */
  lemma OfferAccepted(s: Link, script: seq<ClientAction>, reliable: bool)
    requires script != [] && script[0].Offer?
    ensures Accepted(s.log, reliable) + Handed(script, reliable)
         == Accepted(Enqueued(s, script[0].payload, script[0].reliable).log, reliable) + Handed(script[1..], reliable)
  {
    EnqueuedAccepts(s, script[0], reliable);
    Regroup(Accepted(s.log, reliable), First(script[0], reliable), Handed(script[1..], reliable));
  }

  /** And what follows from it. */
  lemma OfferBalanced(s: Link, script: seq<ClientAction>, r: Ran)
    requires script != [] && script[0].Offer?
    requires Balanced(Enqueued(s, script[0].payload, script[0].reliable), script[1..], r)
    ensures Balanced(s, script, r)
  {
    OfferAccepted(s, script, true);
    OfferAccepted(s, script, false);
    assert script[|script| - |r.script|..] == script[1..][|script| - 1 - |r.script|..];
  }

  /** Nothing accepted, no action taken. */
  lemma QuietBalanced(s: Link, t: Link, script: seq<ClientAction>)
    requires t.log.enqueued == s.log.enqueued && t.log.enqueuedUnreliable == s.log.enqueuedUnreliable
    ensures Balanced(s, script, Ran(t, script))
  {
  }

  /** The opportunity asks the clients. */
  predicate Asks(s: Link) {
    && s.awaitsNextFrame && !s.sendProbe && s.alive.IsAlive() && s.srejs == [] && !MaySendReliable(s)
    && (s.peerStoppedFlowNew || !s.peerRequiresAck)
    && s.unreliable == [] && (s.reliable == [] || s.peerStoppedFlow)
  }

  lemma UnaskedAccepts(s: Link, script: seq<ClientAction>)
    requires !Asks(s)
    ensures var r := Opportunity(s, script);
      && r.script == script
      && r.link.log.enqueued == s.log.enqueued && r.link.log.enqueuedUnreliable == s.log.enqueuedUnreliable
  {
  }

  lemma AskedQueries(s: Link, script: seq<ClientAction>)
    requires Asks(s)
    ensures Opportunity(s, script) == Query(Noticed(s), script)
  {
  }

  /** The clients are asked exactly when nothing more urgent can be sent, and answer. */
  lemma AskedIff(s: Link, script: seq<ClientAction>)
    ensures |Opportunity(s, script).script| < |script| <==> Asks(s) && script != []
  {
    if Asks(s) {
      AskedQueries(s, script);
      QueryBalances(Noticed(s), script);
    } else {
      UnaskedAccepts(s, script);
    }
  }

  lemma {:induction false} OpportunityBalances(s: Link, script: seq<ClientAction>)
    ensures Balanced(s, script, Opportunity(s, script))
    decreases |script|, 1
  {
    if Asks(s) {
      AskedQueries(s, script);
      QueryBalances(Noticed(s), script);
    } else {
      UnaskedAccepts(s, script);
      QuietBalanced(s, Opportunity(s, script).link, script);
    }
  }

  lemma {:induction false} QueryBalances(s: Link, script: seq<ClientAction>)
    ensures Balanced(s, script, Query(s, script))
    ensures script != [] ==> |Query(s, script).script| < |script|
    decreases |script|, 0
  {
    if script == [] {
      QuietBalanced(s, s, script);
    } else if script[0].EndOfQuery? {
      assert Query(s, script) == Ran(s, script[1..]);
    } else {
      var r := Send(s, script[0].payload, script[0].reliable, script[1..]);
      OpportunityBalances(Enqueued(s, script[0].payload, script[0].reliable), script[1..]);
      OfferBalanced(s, script, r);
      QueryBalances(r.link, r.script);
      BalancedOn(s, script, r, Query(r.link, r.script));
    }
  }

  // ---------- Events ----------

  /** The actions that were taken. */
  function Taken(script: seq<ClientAction>, rest: seq<ClientAction>): seq<ClientAction>
    requires |rest| <= |script|
  {
    script[..|script| - |rest|]
  }

  lemma BalancedAccepts(s: Link, script: seq<ClientAction>, r: Ran, reliable: bool)
    requires Balanced(s, script, r)
    ensures Accepted(r.link.log, reliable) == Accepted(s.log, reliable) + Handed(Taken(script, r.script), reliable)
  {
    var taken := Taken(script, r.script);
    assert script == taken + r.script;
    HandedAppend(taken, r.script, reliable);
    var a, b := Accepted(s.log, reliable), Handed(taken, reliable);
    assert Accepted(r.link.log, reliable) + Handed(r.script, reliable) == (a + b) + Handed(r.script, reliable);
    SameFront(Accepted(r.link.log, reliable), a + b, Handed(r.script, reliable));
  }

  lemma SameFront<T>(a: seq<T>, b: seq<T>, c: seq<T>)
    requires a + c == b + c
    ensures a == b
  {
    assert |a| == |b| && a == (a + c)[..|a|] && b == (b + c)[..|b|];
  }

  /** What is handed over with the event itself. */
  function With(e: LinkEvent, reliable: bool): seq<Payload> {
    if e.SendPayload? && e.reliable == reliable then [e.payload] else []
  }

  /** Nothing but the payload of the event itself is accepted before the opportunity. */
  predicate Prepares(s: Link, e: LinkEvent, p: Link) {
    forall reliable :: Accepted(p.log, reliable) == Accepted(s.log, reliable) + With(e, reliable)
  }

  lemma EnqueuedPrepares(s: Link, payload: Payload, reliable: bool)
    ensures Prepares(s, SendPayload(payload, reliable), Enqueued(s, payload, reliable))
  {
  }

  lemma UntouchedPrepares(s: Link, e: LinkEvent, p: Link)
    requires !e.SendPayload?
    requires p.log.enqueued == s.log.enqueued && p.log.enqueuedUnreliable == s.log.enqueuedUnreliable
    ensures Prepares(s, e, p)
  {
  }

  lemma ExpiryPrepares(s: Link)
    ensures Prepares(s, TimerExpired, AfterExpiry(s))
  {
    assert Untouched(s, Unawaited(s));
    UntouchedPrepares(s, TimerExpired, AfterExpiry(s));
  }

  lemma StepPrepares(s: Link, e: LinkEvent)
    requires Inv(s) && Enabled(s, e)
    ensures Prepares(s, e, Prepared(s, e))
  {
    match e
    case SendPayload(payload, reliable) => EnqueuedPrepares(s, payload, reliable);
    case TimerExpired => ExpiryPrepares(s);
    case _ => UntouchedPrepares(s, e, Prepared(s, e));
  }

  /** Every event but a start ends with one opportunity or none. */
  lemma StepIs(s: Link, e: LinkEvent, script: seq<ClientAction>)
    requires Inv(s) && Enabled(s, e) && !e.StartLink?
    ensures var p := Prepared(s, e); Step(s, e, script) in {Opportunity(p, script), Ran(p, script)}
  {
  }

  lemma StartBalances(s: Link, script: seq<ClientAction>)
    ensures Balanced(Reset(s).(started := true, sendProbe := true), script, Start(s, script))
  {
    var p := Reset(s).(started := true, sendProbe := true);
    var r := Opportunity(p, script);
    OpportunityBalances(p, script);
    OpportunityBalances(r.link, r.script);
    BalancedOn(p, script, r, Start(s, script));
  }

  lemma StepBalances(s: Link, e: LinkEvent, script: seq<ClientAction>)
    requires Inv(s) && Enabled(s, e)
    ensures Balanced(Prepared(s, e), script, Step(s, e, script))
  {
    if e.StartLink? {
      StartBalances(s, script);
    } else {
      var p := Prepared(s, e);
      StepIs(s, e, script);
      QuietBalanced(p, p, script);
      OpportunityBalances(p, script);
    }
  }

  /** Every event: the payload of the event and the offers among the actions taken are
      accepted, in this order, and nothing else is. */
  lemma StepAccepts(s: Link, e: LinkEvent, script: seq<ClientAction>, reliable: bool)
    requires Inv(s) && Enabled(s, e)
    ensures var r := Step(s, e, script);
      && |r.script| <= |script| && script[|script| - |r.script|..] == r.script
      && Accepted(r.link.log, reliable)
         == Accepted(s.log, reliable) + With(e, reliable) + Handed(Taken(script, r.script), reliable)
  {
    StepPrepares(s, e);
    StepBalances(s, e, script);
    BalancedAccepts(Prepared(s, e), script, Step(s, e, script), reliable);
  }

  /** The payloads of one kind that the clients hand over in an event: with it, and when
      asked. */
  function HandedBy(s: Link, e: LinkEvent, script: seq<ClientAction>, reliable: bool): seq<Payload>
    requires Inv(s) && Enabled(s, e)
  {
    var rest := Step(s, e, script).script;
    With(e, reliable) + (if |rest| <= |script| then Handed(Taken(script, rest), reliable) else [])
  }

  lemma StepTakes(s: Link, e: LinkEvent, script: seq<ClientAction>, reliable: bool)
    requires Inv(s) && Enabled(s, e)
    ensures Accepted(Step(s, e, script).link.log, reliable)
         == Accepted(s.log, reliable) + HandedBy(s, e, script, reliable)
  {
    StepAccepts(s, e, script, reliable);
    var rest := Step(s, e, script).script;
    Regroup(Accepted(s.log, reliable), With(e, reliable), Handed(Taken(script, rest), reliable));
  }

  /** What was accepted first and then. */
  lemma AcceptedOn<T>(p: seq<T>, a: seq<T>, b: seq<T>, x: seq<T>, y: seq<T>)
    requires x == p + a && y == x + b
    ensures y == p + (a + b)
  {
    Regroup(p, a, b);
  }

  // ---------- Runs ----------

  /** Everything the clients handed over in a run: with the events, and when asked. */
  function Offered(s: Link, moves: seq<Move>, reliable: bool): seq<Payload>
    requires Inv(s)
    decreases |moves|
  {
    if moves == [] then []
    else if Enabled(s, moves[0].event) then
      var m := moves[0];
      StepKeeps(s, m.event, m.script);
      HandedBy(s, m.event, m.script, reliable) + Offered(Step(s, m.event, m.script).link, moves[1..], reliable)
    else Offered(s, moves[1..], reliable)
  }

  lemma {:induction false} ExecAccepts(s: Link, moves: seq<Move>, reliable: bool)
    requires Inv(s)
    ensures Accepted(Exec(s, moves).log, reliable) == Accepted(s.log, reliable) + Offered(s, moves, reliable)
    decreases |moves|
  {
    if moves != [] {
      var m := moves[0];
      if Enabled(s, m.event) {
        var t := Step(s, m.event, m.script).link;
        StepKeeps(s, m.event, m.script);
        StepTakes(s, m.event, m.script, reliable);
        ExecAccepts(t, moves[1..], reliable);
        AcceptedOn(Accepted(s.log, reliable), HandedBy(s, m.event, m.script, reliable), Offered(t, moves[1..], reliable),
                   Accepted(t.log, reliable), Accepted(Exec(s, moves).log, reliable));
      } else {
        ExecAccepts(s, moves[1..], reliable);
      }
    }
  }

  /** Nothing handed over by a client is lost, duplicated or reordered on this side:
      in every run, whatever the peer sends and however often the link is restarted. */
  lemma NothingLost(moves: seq<Move>)
    ensures var t := Exec(NEW_LINK, moves); var sent := IPayloads(t.log.sent);
      && Offered(NEW_LINK, moves, true) == t.log.popped + t.reliable
      && Offered(NEW_LINK, moves, false) == UIPayloads(t.log.sent) + t.unreliable
      && (Stutter(sent, t.log.popped) || (t.reliable != [] && Stutter(sent, t.log.popped + [t.reliable[0]])))
      && |sent| >= |t.log.popped|
  {
    var t := Exec(NEW_LINK, moves);
    var sent := IPayloads(t.log.sent);
    ExecAccepts(NEW_LINK, moves, true);
    ExecAccepts(NEW_LINK, moves, false);
    if Stutter(sent, t.log.popped) {
      StutterLength(sent, t.log.popped);
    } else {
      StutterLength(sent, t.log.popped + [t.reliable[0]]);
    }
  }
}
