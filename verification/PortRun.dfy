/** The port and its protocol entity together: one run of both.

  Clients act on the port, and the port starts and stops the entity; frames and timers
  act on the entity, and the entity tells the port what concerns it.
 */
module PortRuns {
  import opened AliveStates
  import opened Links
  import opened LinkInvariants
  import opened LinkTheorems
  import opened PortLink
  import opened Ports
  import PortTheorems
  import PortBeliefs

  datatype Joint = Joint(link: Link, port: Port)

  datatype JointMove =
    | OnPort(event: PortEvent, script: seq<ClientAction>)   // the script is for a start it causes
    | OnLink(move: Move)

  /** What the entity tells the port when an event takes it from s to t. */
  function Tells(s: Link, e: LinkEvent, t: Link): seq<PortEvent> {
    match e
    case Deliver(_, invalid) => if s.started && !invalid && !s.alive.IsAlive() then [Revived] else []
    case StateTimedOut => [PortEvent.StateTimedOut(t.alive.IsAlive())]
    case ProbeTimedOut => if ChangesRate(s.alive, ProbeTimeout) then [BaudRateChanged] else []
    case _ => []
  }

  /** What the entity does when the port starts or stops it. */
  function Switch(before: Port, after: Port, script: seq<ClientAction>): seq<Move> {
    if after.started && !before.started then [Move(StartLink, script)]
    else if before.started && !after.started then [Move(StopLink, [])]
    else []
  }

  /** Not told by the entity. */
  predicate FromClients(e: PortEvent) {
    !e.Revived? && !e.BaudRateChanged? && !e.StateTimedOut?
  }

  predicate CanMove(j: Joint, m: JointMove) {
    match m
    case OnPort(e, _) => FromClients(e) && Ports.Possible(j.port, e)
    case OnLink(m) => !m.event.StartLink? && !m.event.StopLink? && Enabled(j.link, m.event)
  }

  /** The port knows the entity. */
  ghost predicate Synced(j: Joint) {
    Inv(j.link) && PortTheorems.Inv(j.port) && See(j.link) == Sight(j.port.started, j.port.alive)
  }

  ghost function PortEvents(j: Joint, m: JointMove): seq<PortEvent>
    requires Synced(j) && CanMove(j, m)
  {
    match m
    case OnPort(e, _) => [e]
    case OnLink(m) => Tells(j.link, m.event, Step(j.link, m.event, m.script).link)
  }

  ghost function LinkMoves(j: Joint, m: JointMove): seq<Move>
    requires Synced(j) && CanMove(j, m)
  {
    match m
    case OnPort(e, script) => Switch(j.port, PortTheorems.Next(j.port, e), script)
    case OnLink(m) => [m]
  }

  ghost function Told(p: Port, es: seq<PortEvent>): (q: Port)
    requires PortTheorems.Inv(p) && |es| <= 1 && (es != [] ==> Ports.Possible(p, es[0]))
    ensures PortTheorems.Inv(q)
  {
    if es == [] then p else PortTheorems.Next(p, es[0])
  }

  // ---------- What the events do to the port's knowledge ----------

  lemma SameKnown(p: Port, v: Visit)
    ensures SamePort(p, ForEach(p, v))
  {
  }

  /** A port that is started by a client's event is not alive, one that goes on is as before. */
  predicate Knows(p: Port, q: Port) {
    q.alive == (p.started && q.started && p.alive)
  }

  lemma SuspendKnows(p: Port)
    requires (p.alive ==> p.started) && (p.started ==> p.locks == 0)
    ensures Knows(p, Suspend(p))
  {
  }

  lemma ResumeKnows(p: Port)
    requires p.locks > 0 && !p.started && !p.alive
    ensures Knows(p, Resume(p))
  {
  }

  lemma JoinKnows(p: Port, c: Client)
    requires |p.subscribers| == BUFFER_TYPES && (p.alive ==> p.started) && (p.started ==> p.wasOpened)
    ensures Knows(p, Join(p, c))
  {
  }

  lemma ClientEventKnows(p: Port, e: PortEvent)
    requires PortTheorems.Inv(p) && Ports.Possible(p, e) && FromClients(e)
    ensures Knows(p, PortTheorems.Next(p, e))
  {
    PortTheorems.ReactKeeps(p, e);
    match e
    case Joins(number, subscription) => JoinKnows(p, NewClient(number, subscription));
    case Acquires(i) => SuspendKnows(p.(clients := p.clients[i := p.clients[i].(lockedBySelf := true)]));
    case Releases(i) =>
      if p.clients[i].lockedBySelf {
        ResumeKnows(p.(clients := p.clients[i := p.clients[i].(lockedBySelf := false)]));
      }
    case Dies(i) =>
      if p.clients[i].lockedBySelf {
        ResumeKnows(p.(clients := p.clients[i := p.clients[i].(live := false)]));
      }
    case FrameForClients(packet, _) => SameKnown(p, DeliverBuffer(packet));
    case QueriesClients(answers) => SameKnown(p, QueryForPayload(answers));
    case _ =>
  }

  lemma ToldKnows(p: Port, e: PortEvent)
    requires PortTheorems.Inv(p) && Ports.Possible(p, e) && !FromClients(e)
    ensures var q := PortTheorems.Next(p, e);
      q.started == p.started && q.alive == (if e.Revived? then true else if e.StateTimedOut? then e.alive else p.alive)
  {
  }

  // ---------- Every step keeps the port in the picture ----------

  lemma ExecOne(s: Link, m: Move)
    requires Inv(s) && Enabled(s, m.event)
    ensures Exec(s, [m]) == Step(s, m.event, m.script).link
  {
    StepKeeps(s, m.event, m.script);
    assert [m][1..] == [];
  }

  lemma OnPortSyncs(j: Joint, e: PortEvent, script: seq<ClientAction>)
    requires Synced(j) && CanMove(j, OnPort(e, script))
    ensures var q := PortTheorems.Next(j.port, e);
      Synced(Joint(Exec(j.link, Switch(j.port, q, script)), q))
  {
    var p, q := j.port, PortTheorems.Next(j.port, e);
    ClientEventKnows(p, e);
    if q.started && !p.started {
      ExecOne(j.link, Move(StartLink, script));
      PortEventsSuffice(j.link, StartLink, script);
    } else if p.started && !q.started {
      ExecOne(j.link, Move(StopLink, []));
      PortEventsSuffice(j.link, StopLink, []);
    }
  }

  lemma OnLinkSyncs(j: Joint, m: Move)
    requires Synced(j) && CanMove(j, OnLink(m))
    ensures var t := Step(j.link, m.event, m.script).link; var es := Tells(j.link, m.event, t);
      && |es| <= 1 && (es != [] ==> Ports.Possible(j.port, es[0]))
      && Synced(Joint(t, Told(j.port, es)))
  {
    StepKeeps(j.link, m.event, m.script);
    PortEventsSuffice(j.link, m.event, m.script);
    var es := Tells(j.link, m.event, Step(j.link, m.event, m.script).link);
    if es != [] {
      ToldKnows(j.port, es[0]);
    }
  }

  ghost function JointStep(j: Joint, m: JointMove): (k: Joint)
    requires Synced(j) && CanMove(j, m)
    ensures Synced(k)
  {
    match m
    case OnPort(e, script) =>
      OnPortSyncs(j, e, script);
      var q := PortTheorems.Next(j.port, e);
      Joint(Exec(j.link, Switch(j.port, q, script)), q)
    case OnLink(m) =>
      OnLinkSyncs(j, m);
      var t := Step(j.link, m.event, m.script).link;
      Joint(t, Told(j.port, Tells(j.link, m.event, t)))
  }

  /** One step of both is a step or none of each. */
  lemma JointParts(j: Joint, m: JointMove)
    requires Synced(j) && CanMove(j, m)
    ensures JointStep(j, m).link == Exec(j.link, LinkMoves(j, m))
    ensures var es := PortEvents(j, m);
      && |es| <= 1 && (es != [] ==> Ports.Possible(j.port, es[0]))
      && JointStep(j, m).port == Told(j.port, es)
  {
    match m
    case OnPort(e, script) =>
    case OnLink(m) =>
      ExecOne(j.link, m);
      OnLinkSyncs(j, m);
  }

  // ---------- Runs ----------

  /** Both after a run; what cannot happen is skipped. */
  ghost function Joined(j: Joint, ms: seq<JointMove>): (k: Joint)
    requires Synced(j)
    ensures Synced(k)
    decreases |ms|
  {
    if ms == [] then j
    else if CanMove(j, ms[0]) then
      Joined(JointStep(j, ms[0]), ms[1..])
    else Joined(j, ms[1..])
  }

  ghost function AllLinkMoves(j: Joint, ms: seq<JointMove>): seq<Move>
    requires Synced(j)
    decreases |ms|
  {
    if ms == [] then []
    else if CanMove(j, ms[0]) then
      LinkMoves(j, ms[0]) + AllLinkMoves(JointStep(j, ms[0]), ms[1..])
    else AllLinkMoves(j, ms[1..])
  }

  ghost function AllPortEvents(j: Joint, ms: seq<JointMove>): seq<PortEvent>
    requires Synced(j)
    decreases |ms|
  {
    if ms == [] then []
    else if CanMove(j, ms[0]) then
      PortEvents(j, ms[0]) + AllPortEvents(JointStep(j, ms[0]), ms[1..])
    else AllPortEvents(j, ms[1..])
  }

  lemma {:induction false} ExecAppend(s: Link, a: seq<Move>, b: seq<Move>)
    requires Inv(s)
    ensures Exec(s, a + b) == Exec(Exec(s, a), b)
    decreases |a|
  {
    if a == [] {
      assert a + b == b;
    } else {
      assert (a + b)[0] == a[0] && (a + b)[1..] == a[1..] + b;
      if Enabled(s, a[0].event) {
        StepKeeps(s, a[0].event, a[0].script);
        ExecAppend(Step(s, a[0].event, a[0].script).link, a[1..], b);
      } else {
        ExecAppend(s, a[1..], b);
      }
    }
  }

  lemma AfterMore(p: Port, e: PortEvent, es: seq<PortEvent>)
    requires PortTheorems.Inv(p) && Ports.Possible(p, e) && PortTheorems.Feasible(PortTheorems.Next(p, e), es)
    ensures PortTheorems.Feasible(p, [e] + es)
    ensures PortTheorems.After(p, [e] + es) == PortTheorems.After(PortTheorems.Next(p, e), es)
  {
    assert ([e] + es)[0] == e && ([e] + es)[1..] == es;
  }

  lemma AfterTold(p: Port, one: seq<PortEvent>, es: seq<PortEvent>)
    requires PortTheorems.Inv(p) && |one| <= 1 && (one != [] ==> Ports.Possible(p, one[0]))
    requires PortTheorems.Feasible(Told(p, one), es)
    ensures PortTheorems.Feasible(p, one + es)
    ensures PortTheorems.After(p, one + es) == PortTheorems.After(Told(p, one), es)
  {
    if one == [] {
      assert one + es == es;
    } else {
      assert one == [one[0]];
      AfterMore(p, one[0], es);
    }
  }

  /** A run of both is a run of the entity, and a run of the port. */
  lemma {:induction false} JoinedParts(j: Joint, ms: seq<JointMove>)
    requires Synced(j)
    ensures Joined(j, ms).link == Exec(j.link, AllLinkMoves(j, ms))
    ensures PortTheorems.Feasible(j.port, AllPortEvents(j, ms))
    ensures Joined(j, ms).port == PortTheorems.After(j.port, AllPortEvents(j, ms))
    decreases |ms|
  {
    if ms != [] {
      if CanMove(j, ms[0]) {
        var k := JointStep(j, ms[0]);
          JointParts(j, ms[0]);
        JoinedParts(k, ms[1..]);
        ExecAppend(j.link, LinkMoves(j, ms[0]), AllLinkMoves(k, ms[1..]));
        AfterTold(j.port, PortEvents(j, ms[0]), AllPortEvents(k, ms[1..]));
      } else {
        JoinedParts(j, ms[1..]);
      }
    }
  }

  const NEW_JOINT := Joint(NEW_LINK, NEW_PORT)

  lemma NewSynced()
    ensures Synced(NEW_JOINT)
  {
    PortTheorems.NewPortInv();
  }

  ghost function JointRun(ms: seq<JointMove>): (j: Joint)
    ensures Synced(j)
  {
    NewSynced();
    Joined(NEW_JOINT, ms)
  }

  /** The events of the port in such a run. */
  ghost function Events(ms: seq<JointMove>): (es: seq<PortEvent>)
    ensures PortTheorems.Run(es) && JointRun(ms).port == PortTheorems.Reached(es)
  {
    NewSynced();
    JoinedParts(NEW_JOINT, ms);
    AllPortEvents(NEW_JOINT, ms)
  }

  /** In every run of both the entity runs if and only if the port was opened and nobody
      holds the lock, and the last message of every living client is right about the
      entity if and only if its device was not lost unnoticed. */
  lemma ClientsKnowTheLink(ms: seq<JointMove>, i: nat)
    requires IsLive(JointRun(ms).port, i)
    ensures var j := JointRun(ms); var c := j.port.clients[i];
      && (j.link.started <==> j.port.wasOpened && !exists k: nat :: PortTheorems.Holds(j.port, k))
      && c.messages != []
      && (c.messages[|c.messages| - 1].alive == j.link.alive.IsAlive() <==> !PortBeliefs.Lowered(Events(ms)))
  {
    var es := Events(ms);
    PortTheorems.LockCountsHolders(es);
    PortBeliefs.ClientsAreTold(es, i);
  }

  // ---------- Every run of the entity is part of such a run ----------

  /** Nobody yet, or one client, who opened the port and lives. */
  predicate Solo(p: Port) {
    p == NEW_PORT || (p.wasOpened && |p.clients| == 1 && p.clients[0].live)
  }

  predicate OneClient(p: Port, locked: bool) {
    |p.clients| == 1 && p.clients[0].live && p.clients[0].lockedBySelf == locked
  }

  lemma PropagateOne(p: Port, locked: bool)
    requires OneClient(p, locked)
    ensures OneClient(Propagate(p), locked) && SamePort(p, Propagate(p))
  {
    PortTheorems.WalkReachesAll(p, UpdateState, 0);
    assert p.clients[0..] == p.clients && p.clients[1..] == [];
    PortTheorems.SurvivorsFrom(p.clients, 0, UpdateState, p.alive, p.locks);
    assert Propagate(p).clients == [Updated(p.clients[0], p.alive, p.locks)];
  }

  lemma SuspendOne(p: Port)
    requires OneClient(p, true)
    ensures OneClient(Suspend(p), true) && Suspend(p).wasOpened == p.wasOpened
  {
    var q := p.(locks := p.locks + 1);
    if q.locks == 1 && q.started {
      PropagateOne(q.(started := false, alive := false), true);
    }
    PropagateOne(if q.locks == 1 then StopProtocol(q) else q, true);
  }

  lemma ResumeOne(p: Port)
    requires OneClient(p, false) && p.locks > 0 && p.wasOpened
    ensures OneClient(Resume(p), false) && Resume(p).wasOpened
  {
    var q := p.(locks := p.locks - 1);
    PropagateOne(q, false);
    PropagateOne(q.(wasOpened := true, started := true, alive := false), false);
  }

  lemma LockDecides(p: Port, locked: bool)
    requires PortTheorems.Inv(p) && p.wasOpened && OneClient(p, locked)
    ensures p.started == !locked
  {
    assert PortTheorems.Holders(p.clients) == PortTheorems.Weight(p.clients[0]) by {
      assert p.clients[1..] == [];
    }
  }

  lemma JoinOne(subscription: Subscription)
    ensures PortTheorems.Inv(NEW_PORT)
    ensures var q := PortTheorems.Next(NEW_PORT, Joins(0, subscription)); q.wasOpened && OneClient(q, false)
  {
    NewSynced();
    PortTheorems.ReactKeeps(NEW_PORT, Joins(0, subscription));
    var c := NewClient(0, subscription);
    var q := Add(NEW_PORT, c);
    assert q.clients == [c];
    PropagateOne(q.(wasOpened := true, started := true, alive := false), false);
    PropagateOne(Open(q), false);
  }

  lemma AcquireOne(p: Port)
    requires PortTheorems.Inv(p) && p.wasOpened && OneClient(p, false)
    ensures Ports.Possible(p, Acquires(0))
    ensures var q := PortTheorems.Next(p, Acquires(0)); q.wasOpened && OneClient(q, true) && !q.started
  {
    PortTheorems.ReactKeeps(p, Acquires(0));
    SuspendOne(p.(clients := p.clients[0 := p.clients[0].(lockedBySelf := true)]));
    LockDecides(PortTheorems.Next(p, Acquires(0)), true);
  }

  lemma ReleaseOne(p: Port)
    requires PortTheorems.Inv(p) && p.wasOpened && OneClient(p, true)
    ensures Ports.Possible(p, Releases(0))
    ensures var q := PortTheorems.Next(p, Releases(0)); q.wasOpened && OneClient(q, false) && q.started
  {
    PortTheorems.ReactKeeps(p, Releases(0));
    PortTheorems.HeldLock(p, 0);
    ResumeOne(p.(clients := p.clients[0 := p.clients[0].(lockedBySelf := false)]));
    LockDecides(PortTheorems.Next(p, Releases(0)), false);
  }

  lemma ToldOne(p: Port, e: PortEvent)
    requires PortTheorems.Inv(p) && p.wasOpened && Solo(p) && Ports.Possible(p, e) && !FromClients(e)
    ensures Solo(PortTheorems.Next(p, e))
  {
    var locked := p.clients[0].lockedBySelf;
    PropagateOne(p, locked);
    PropagateOne(p.(alive := true), locked);
  }

  lemma JoinedOne(j: Joint, m: JointMove, rest: seq<JointMove>)
    requires Synced(j) && CanMove(j, m)
    ensures Joined(j, [m] + rest) == Joined(JointStep(j, m), rest)
  {
    assert ([m] + rest)[0] == m && ([m] + rest)[1..] == rest;
  }

  /** A restart is a stop and a start. */
  lemma RestartIsStopStart(s: Link, script: seq<ClientAction>)
    ensures Start(Stop(s), script) == Start(s, script)
  {
    assert NewGap(NewGap(s.log, []), []) == NewGap(s.log, []) by {
      assert s.log.requestedBefore + s.log.requested + [] == s.log.requestedBefore + s.log.requested;
    }
  }

  const ANYTHING := Subscription(RAW, true, true, true)

  lemma ReleaseMirrors(j: Joint, script: seq<ClientAction>) returns (ms: seq<JointMove>)
    requires Synced(j) && Solo(j.port) && j.port.wasOpened && !j.port.started
    ensures var k := Joined(j, ms); k.link == Start(j.link, script).link && Solo(k.port)
  {
    var m := OnPort(Releases(0), script);
    ms := [m] + [];
    LockDecides(j.port, j.port.clients[0].lockedBySelf);
    ReleaseOne(j.port);
    ExecOne(j.link, Move(StartLink, script));
    JoinedOne(j, m, []);
  }

  lemma MirrorStart(j: Joint, script: seq<ClientAction>) returns (ms: seq<JointMove>)
    requires Synced(j) && Solo(j.port)
    ensures var k := Joined(j, ms); k.link == Start(j.link, script).link && Solo(k.port)
  {
    if !j.port.wasOpened {
      var m := OnPort(Joins(0, ANYTHING), script);
      ms := [m] + [];
      JoinOne(ANYTHING);
      LockDecides(PortTheorems.Next(j.port, m.event), false);
      ExecOne(j.link, Move(StartLink, script));
      JoinedOne(j, m, []);
    } else if !j.port.started {
      ms := ReleaseMirrors(j, script);
    } else {
      var m := OnPort(Acquires(0), []);
      LockDecides(j.port, j.port.clients[0].lockedBySelf);
      AcquireOne(j.port);
      ExecOne(j.link, Move(StopLink, []));
      var rest := ReleaseMirrors(JointStep(j, m), script);
      ms := [m] + rest;
      JoinedOne(j, m, rest);
      RestartIsStopStart(j.link, script);
    }
  }

  lemma MirrorStop(j: Joint) returns (ms: seq<JointMove>)
    requires Synced(j) && Solo(j.port)
    ensures var k := Joined(j, ms); k.link == Stop(j.link) && Solo(k.port)
  {
    if !j.port.started {
      ms := [];
    } else {
      var m := OnPort(Acquires(0), []);
      ms := [m] + [];
      LockDecides(j.port, j.port.clients[0].lockedBySelf);
      AcquireOne(j.port);
      ExecOne(j.link, Move(StopLink, []));
      JoinedOne(j, m, []);
    }
  }

  lemma MirrorOther(j: Joint, m: Move) returns (ms: seq<JointMove>)
    requires Synced(j) && Solo(j.port) && CanMove(j, OnLink(m))
    ensures var k := Joined(j, ms); k.link == Step(j.link, m.event, m.script).link && Solo(k.port)
  {
    ms := [OnLink(m)] + [];
    JoinedOne(j, OnLink(m), []);
    OnLinkSyncs(j, m);
    var es := Tells(j.link, m.event, Step(j.link, m.event, m.script).link);
    if es != [] {
      ToldOne(j.port, es[0]);
    }
  }

  lemma Mirror(j: Joint, m: Move) returns (ms: seq<JointMove>)
    requires Synced(j) && Solo(j.port) && Enabled(j.link, m.event)
    ensures var k := Joined(j, ms); k.link == Step(j.link, m.event, m.script).link && Solo(k.port)
  {
    match m.event
    case StartLink => ms := MirrorStart(j, m.script);
    case StopLink => ms := MirrorStop(j);
    case _ => ms := MirrorOther(j, m);
  }

  lemma {:induction false} JoinedAppend(j: Joint, a: seq<JointMove>, b: seq<JointMove>)
    requires Synced(j)
    ensures Joined(j, a + b) == Joined(Joined(j, a), b)
    decreases |a|
  {
    if a == [] {
      assert a + b == b;
    } else {
      assert (a + b)[0] == a[0] && (a + b)[1..] == a[1..] + b;
      if CanMove(j, a[0]) {
        JoinedAppend(JointStep(j, a[0]), a[1..], b);
      } else {
        JoinedAppend(j, a[1..], b);
      }
    }
  }

  lemma {:induction false} MirrorAll(j: Joint, moves: seq<Move>) returns (ms: seq<JointMove>)
    requires Synced(j) && Solo(j.port)
    ensures Joined(j, ms).link == Exec(j.link, moves)
    decreases |moves|
  {
    if moves == [] {
      ms := [];
    } else if Enabled(j.link, moves[0].event) {
      var a := Mirror(j, moves[0]);
      var b := MirrorAll(Joined(j, a), moves[1..]);
      JoinedAppend(j, a, b);
      ms := a + b;
    } else {
      ms := MirrorAll(j, moves[1..]);
    }
  }

  /** The entity is where these moves lead, and the port knows it. */
  ghost predicate Follows(j: Joint, moves: seq<Move>) {
    j.link == Exec(NEW_LINK, moves) && See(j.link) == Sight(j.port.started, j.port.alive)
  }

  /** For every run of the entity, starts and stops included, there is a run of a port
      with clients that goes with it and knows it at the end. */
  lemma EveryLinkRunHasAPort(moves: seq<Move>) returns (ms: seq<JointMove>)
    ensures Follows(JointRun(ms), moves)
  {
    NewSynced();
    ms := MirrorAll(NEW_JOINT, moves);
  }
}
