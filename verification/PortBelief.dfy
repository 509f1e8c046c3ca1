/** What the clients were told of the device, and exactly when it is no longer true. */
module PortBeliefs {
  import opened Ports
  import opened PortTheorems
  import opened Stutters

  // ---------- Updates inside a query ----------

  function LiveNumbers(cs: seq<Client>): set<nat> {
    set c | c in cs && c.live :: c.number
  }

  /** Whether a walk over living clients with these numbers updates them on its way:
      a query does if one of them answers with a walk that does. */
  ghost predicate Refreshes(numbers: set<nat>, v: Visit)
    decreases v, 1
  {
    match v
    case UpdateState => true
    case DeliverBuffer(_) => false
    case QueryForPayload(answers) =>
      exists k: nat :: k in numbers && k < |answers| && AnswerRefreshes(numbers, v, k, 0)
  }

  /** One of the walks of the answer of client k, from the j-th on. */
  ghost predicate AnswerRefreshes(numbers: set<nat>, v: Visit, k: nat, j: nat)
    requires v.QueryForPayload? && k < |v.answers| && j <= |v.answers[k].walks|
    decreases v, 0, |v.answers[k].walks| - j
  {
    j < |v.answers[k].walks| &&
    (Refreshes(numbers, v.answers[k].walks[j]) || AnswerRefreshes(numbers, v, k, j + 1))
  }

  ghost predicate VisitRefreshes(numbers: set<nat>, v: Visit, c: Client) {
    v.QueryForPayload? && c.live && c.number < |v.answers| && AnswerRefreshes(numbers, v, c.number, 0)
  }

  /** The part of a query from position i on. */
  ghost predicate RestRefreshes(numbers: set<nat>, v: Visit, cs: seq<Client>, i: nat) {
    exists k :: i <= k < |cs| && VisitRefreshes(numbers, v, cs[k])
  }

  lemma RestOfAll(v: Visit, cs: seq<Client>)
    requires v.QueryForPayload?
    ensures RestRefreshes(LiveNumbers(cs), v, cs, 0) <==> Refreshes(LiveNumbers(cs), v)
  {
    var numbers := LiveNumbers(cs);
    if Refreshes(numbers, v) {
      var k: nat :| k in numbers && k < |v.answers| && AnswerRefreshes(numbers, v, k, 0);
      var c :| c in cs && c.live && c.number == k;
      var i :| 0 <= i < |cs| && cs[i] == c;
      assert VisitRefreshes(numbers, v, cs[i]);
    }
    if RestRefreshes(numbers, v, cs, 0) {
      var i :| 0 <= i < |cs| && VisitRefreshes(numbers, v, cs[i]);
      assert cs[i].number in numbers;
    }
  }

  lemma SameNumbers(cs: seq<Client>, ds: seq<Client>)
    requires |cs| == |ds| && forall i :: 0 <= i < |cs| ==> SameGuards(cs[i], ds[i])
    ensures LiveNumbers(cs) == LiveNumbers(ds)
  {
    forall n ensures n in LiveNumbers(cs) <==> n in LiveNumbers(ds) {
      if n in LiveNumbers(cs) {
        var i :| 0 <= i < |cs| && cs[i].live && cs[i].number == n;
        assert SameGuards(cs[i], ds[i]) && ds[i] in ds;
      }
      if n in LiveNumbers(ds) {
        var i :| 0 <= i < |ds| && ds[i].live && ds[i].number == n;
        assert SameGuards(cs[i], ds[i]) && cs[i] in cs;
      }
    }
  }

  lemma SameRest(numbers: set<nat>, v: Visit, cs: seq<Client>, ds: seq<Client>, i: nat)
    requires |cs| == |ds| && forall k :: 0 <= k < |cs| ==> SameGuards(cs[k], ds[k])
    ensures RestRefreshes(numbers, v, cs, i) == RestRefreshes(numbers, v, ds, i)
  {
    forall k | 0 <= k < |cs| ensures VisitRefreshes(numbers, v, cs[k]) == VisitRefreshes(numbers, v, ds[k]) {
      assert SameGuards(cs[k], ds[k]);
    }
  }

  lemma ErasedNumbers(cs: seq<Client>, i: nat)
    requires i < |cs| && !cs[i].live
    ensures LiveNumbers(cs[..i] + cs[i + 1..]) == LiveNumbers(cs)
  {
    forall c: Client | c.live ensures c in cs <==> c in cs[..i] + cs[i + 1..] {
      if c in cs {
        var k :| 0 <= k < |cs| && cs[k] == c;
        assert (cs[..i] + cs[i + 1..])[if k < i then k else k - 1] == c;
      }
    }
  }

  lemma ErasedRestRefreshes(numbers: set<nat>, v: Visit, cs: seq<Client>, i: nat)
    requires i < |cs| && !cs[i].live
    ensures RestRefreshes(numbers, v, cs[..i] + cs[i + 1..], i) == RestRefreshes(numbers, v, cs, i)
  {
    var ds := cs[..i] + cs[i + 1..];
    if k :| i <= k < |cs| && VisitRefreshes(numbers, v, cs[k]) {
      assert ds[k - 1] == cs[k];
    }
    if k :| i <= k < |ds| && VisitRefreshes(numbers, v, ds[k]) {
      assert ds[k] == cs[k + 1];
    }
  }

  lemma FirstOfRest(numbers: set<nat>, v: Visit, cs: seq<Client>, i: nat)
    requires i < |cs|
    ensures RestRefreshes(numbers, v, cs, i)
         == (VisitRefreshes(numbers, v, cs[i]) || RestRefreshes(numbers, v, cs, i + 1))
  {
  }

  // ---------- Walks and beliefs ----------

  function Corrected(b: bool, refreshed: bool, alive: bool): bool {
    if refreshed then alive else b
  }

  lemma {:induction false} WalkBelief(p: Port, v: Visit, cyclic: bool, b: bool)
    requires All(Told, p.clients) && Believe(p, b)
    ensures var q := Walked(p, v, 0, cyclic);
      All(Told, q.clients) && Believe(q, Corrected(b, Refreshes(LiveNumbers(p.clients), v), p.alive))
    decreases v, 3, 0
  {
    if v.UpdateState? {
      UpdatingWalk(p, 0, cyclic);
    } else {
      var numbers := LiveNumbers(p.clients);
      WalkBeliefFrom(p, v, 0, cyclic, b, numbers, Corrected(b, RestRefreshes(numbers, v, p.clients, 0), p.alive));
      if v.QueryForPayload? {
        RestOfAll(v, p.clients);
      }
    }
  }

  lemma RestAfterVisit(p: Port, v: Visit, i: nat, numbers: set<nat>)
    requires i < |p.clients| && numbers == LiveNumbers(p.clients)
    ensures var q := Visited(p, v, i);
      && numbers == LiveNumbers(q.clients)
      && RestRefreshes(numbers, v, p.clients, i)
         == (VisitRefreshes(numbers, v, p.clients[i]) || RestRefreshes(numbers, v, q.clients, i + 1))
  {
    var q := Visited(p, v, i);
    FirstOfRest(numbers, v, p.clients, i);
    SameNumbers(p.clients, q.clients);
    SameRest(numbers, v, p.clients, q.clients, i + 1);
  }

  lemma RestAfterExpired(p: Port, v: Visit, i: nat, numbers: set<nat>)
    requires i < |p.clients| && !p.clients[i].live && numbers == LiveNumbers(p.clients)
    ensures numbers == LiveNumbers(Erased(p, i).clients)
    ensures RestRefreshes(numbers, v, p.clients, i) == RestRefreshes(numbers, v, p.clients, i + 1)
    ensures RestRefreshes(numbers, v, p.clients, i) == RestRefreshes(numbers, v, Erased(p, i).clients, i)
  {
    FirstOfRest(numbers, v, p.clients, i);
    ErasedNumbers(p.clients, i);
    ErasedRestRefreshes(numbers, v, p.clients, i);
  }

  lemma BeliefOfErased(p: Port, i: nat, b: bool)
    requires i < |p.clients| && All(Told, p.clients) && Believe(p, b)
    ensures All(Told, Erased(p, i).clients) && Believe(Erased(p, i), b)
  {
  }

  lemma {:induction false} WalkBeliefFrom(p: Port, v: Visit, i: nat, cyclic: bool, b: bool, numbers: set<nat>, end: bool)
    requires i <= |p.clients| && All(Told, p.clients) && Believe(p, b) && !v.UpdateState?
    requires numbers == LiveNumbers(p.clients)
    requires end == Corrected(b, RestRefreshes(numbers, v, p.clients, i), p.alive)
    ensures Ends(p, v, i, cyclic, end)
    decreases v, 2, |p.clients| - i
  {
    if i == |p.clients| {
    } else if p.clients[i].live {
      RestAfterVisit(p, v, i, numbers);
      VisitBelief(p, v, i, b, numbers);
      var told := Corrected(b, VisitRefreshes(numbers, v, p.clients[i]), p.alive);
      WalkBeliefFrom(Visited(p, v, i), v, i + 1, cyclic, told, numbers, end);
      EndsAfterVisit(p, v, i, cyclic, end);
    } else {
      RestAfterExpired(p, v, i, numbers);
      if cyclic {
        WalkBeliefFrom(p, v, i + 1, cyclic, b, numbers, end);
      } else {
        BeliefOfErased(p, i, b);
        WalkBeliefFrom(Erased(p, i), v, i, cyclic, b, numbers, end);
      }
      EndsAfterExpired(p, v, i, cyclic, end);
    }
  }

  lemma DeliveryBelief(p: Port, packet: Packet, i: nat, b: bool)
    requires i < |p.clients| && All(Told, p.clients) && Believe(p, b)
    ensures var q := Visited(p, DeliverBuffer(packet), i); All(Told, q.clients) && Believe(q, b)
  {
    OfferedSame(p.clients[i], packet, b, p.locks);
  }

  lemma OfferedSame(c: Client, packet: Packet, b: bool, locks: nat)
    ensures Told(c) ==> Told(Offered(c, packet))
    ensures UpToDate(c, b, locks) ==> UpToDate(Offered(c, packet), b, locks)
    ensures Offered(c, packet).live == c.live
  {
  }

  lemma {:induction false} VisitBelief(p: Port, v: Visit, i: nat, b: bool, numbers: set<nat>)
    requires i < |p.clients| && p.clients[i].live && All(Told, p.clients) && Believe(p, b) && !v.UpdateState?
    requires numbers == LiveNumbers(p.clients)
    ensures var q := Visited(p, v, i);
      All(Told, q.clients) && Believe(q, Corrected(b, VisitRefreshes(numbers, v, p.clients[i]), p.alive))
    decreases v, 1, 0
  {
    match v
    case DeliverBuffer(packet) => DeliveryBelief(p, packet, i, b);
    case QueryForPayload(answers) =>
      if p.clients[i].number < |answers| {
        AnswerBelief(p, v, p.clients[i].number, 0, b, numbers);
      }
  }

  lemma {:induction false} AnswerBelief(p: Port, v: Visit, k: nat, j: nat, b: bool, numbers: set<nat>)
    requires v.QueryForPayload? && k < |v.answers| && j <= |v.answers[k].walks|
    requires All(Told, p.clients) && Believe(p, b) && numbers == LiveNumbers(p.clients)
    ensures var q := Answered(p, v, k, j);
      All(Told, q.clients) && Believe(q, Corrected(b, AnswerRefreshes(numbers, v, k, j), p.alive))
    decreases v, 0, |v.answers[k].walks| - j
  {
    if j < |v.answers[k].walks| {
      var w := v.answers[k].walks[j];
      var q := Walked(p, w, 0, true);
      WalkBelief(p, w, true, b);
      SameNumbers(p.clients, q.clients);
      AnswerBelief(q, v, k, j + 1, Corrected(b, Refreshes(numbers, w), p.alive), numbers);
    }
  }

  // ---------- Events and runs ----------

  /** The device was lost by the state timer, and the clients were not told since. */
  ghost predicate LoweredBy(p: Port, e: PortEvent, low: bool) {
    if Propagates(p, e) then false
    else
      match e
      case StateTimedOut(alive) => low || (p.alive && !alive)
      case QueriesClients(answers) => low && !Refreshes(LiveNumbers(p.clients), QueryForPayload(answers))
      case _ => low
  }

  ghost predicate LoweredFrom(p: Port, es: seq<PortEvent>, low: bool)
    requires Inv(p) && Feasible(p, es)
    decreases |es|
  {
    if es == [] then low else LoweredFrom(Next(p, es[0]), es[1..], LoweredBy(p, es[0], low))
  }

  ghost predicate Lowered(es: seq<PortEvent>)
    requires Run(es)
  {
    LoweredFrom(NEW_PORT, es, false)
  }

  /** The clients believe in a live device if it is alive, or was lost unnoticed. */
  ghost predicate Believed(p: Port, low: bool) {
    (low ==> !p.alive) && Believe(p, p.alive || low)
  }

  lemma ForEachBelief(p: Port, v: Visit, low: bool)
    requires Inv(p) && Believed(p, low) && !v.UpdateState?
    ensures Believed(ForEach(p, v), low && !Refreshes(LiveNumbers(p.clients), v))
  {
    ForEachKeeps(p, v);
    WalkBelief(p, v, false, p.alive || low);
  }

  lemma QuietBelief(p: Port, e: PortEvent, low: bool)
    requires Inv(p) && Possible(p, e) && LocksBacked(p) && Believed(p, low)
    requires e.Acquires? || e.Releases? || e.Dies? || e.StateTimedOut?
    requires !Propagates(p, e)
    ensures Believed(React(p, e), LoweredBy(p, e, low))
  {
  }

  lemma StepBelief(p: Port, e: PortEvent, low: bool)
    requires Inv(p) && Possible(p, e) && Believed(p, low)
    ensures Believed(Next(p, e), LoweredBy(p, e, low))
  {
    ReactKeeps(p, e);
    if !Propagates(p, e) {
      match e
      case FrameForClients(packet, _) => ForEachBelief(p, DeliverBuffer(packet), low);
      case QueriesClients(answers) => ForEachBelief(p, QueryForPayload(answers), low);
      case _ => QuietBelief(p, e, low);
    }
  }

  lemma {:induction false} RunBelief(p: Port, es: seq<PortEvent>, low: bool)
    requires Inv(p) && Feasible(p, es) && Believed(p, low)
    ensures Believed(After(p, es), LoweredFrom(p, es, low))
    decreases |es|
  {
    if es != [] {
      StepBelief(p, es[0], low);
      RunBelief(Next(p, es[0]), es[1..], LoweredBy(p, es[0], low));
    }
  }

  /** Status messages: in every run every living client was sent a first message, never
      the same twice in a row, and the last one is right about who holds the lock.  It
      is right about the device if and only if the device was not lost unnoticed. */
  lemma ClientsAreTold(es: seq<PortEvent>, i: nat)
    requires Run(es) && IsLive(Reached(es), i)
    ensures var p := Reached(es); var c := p.clients[i];
      && c.messages != [] && NoRepeats(c.messages) && Stutter(c.seen, c.messages)
      && var last := c.messages[|c.messages| - 1];
        && last.lockedBySelf == c.lockedBySelf
        && (last.lockedByOthers <==> exists j: nat :: j != i && Holds(p, j))
        && (last.alive == p.alive <==> !Lowered(es))
        && (last.alive != p.alive ==> last.alive)
  {
    var p := Reached(es);
    RunBelief(NEW_PORT, es, false);
    ChangesFacts(p.clients[i].seen);
    OthersExact(p, i);
    assert UpToDate(p.clients[i], p.alive || Lowered(es), p.locks);
  }

  // ---------- A device that is lost unnoticed ----------

  function LosingRun(s: Subscription): seq<PortEvent> {
    [Joins(0, s), Revived, StateTimedOut(false)]
  }

  lemma OneStays(p: Port)
    requires |p.clients| == 1 && p.clients[0].live
    ensures |Propagate(p).clients| == 1
  {
    WalkReachesAll(p, UpdateState, 0);
    assert p.clients[0..] == p.clients && p.clients[1..] == [];
    SurvivorsFrom(p.clients, 0, UpdateState, p.alive, p.locks);
  }

  lemma FirstJoins(s: Subscription)
    ensures Books(NEW_PORT) && LocksBacked(NEW_PORT)
    ensures var p := React(NEW_PORT, Joins(0, s)); p.started && !p.alive && |p.clients| == 1
  {
    var c := NewClient(0, s);
    AddedBooks(NEW_PORT, c);
    var q := Add(NEW_PORT, c);
    assert q.clients == [c];
    var r := q.(wasOpened := true, started := true, alive := false);
    OneStays(r);
    OpenSettles(q);
    PropagateInforms(r);
    assert Open(q) == Propagate(r);
    OneStays(Open(q));
    PropagateInforms(Open(q));
  }

  lemma LosingSteps(s: Subscription)
    ensures Inv(NEW_PORT) && Possible(NEW_PORT, Joins(0, s))
    ensures Possible(Next(NEW_PORT, Joins(0, s)), Revived)
    ensures var q := Next(Next(NEW_PORT, Joins(0, s)), Revived);
      q.started && q.alive && |q.clients| == 1 && q.clients[0].live
  {
    NewPortInv();
    FirstJoins(s);
    ReactKeeps(NEW_PORT, Joins(0, s));
    var p := Next(NEW_PORT, Joins(0, s));
    PropagateInforms(Open(Add(NEW_PORT, NewClient(0, s))));
    ReactKeeps(p, Revived);
    OneStays(p.(alive := true));
    PropagateInforms(p.(alive := true));
  }

  /** A client joins, the device answers, and the state timer gives it up: the client
      still believes in it. */
  lemma LossUnnoticed(s: Subscription)
    ensures Run(LosingRun(s))
    ensures var p := Reached(LosingRun(s));
      && Lowered(LosingRun(s)) && IsLive(p, 0) && !p.alive
      && p.clients[0].messages != [] && p.clients[0].messages[|p.clients[0].messages| - 1].alive
  {
    var es := LosingRun(s);
    LosingSteps(s);
    var p := Next(NEW_PORT, es[0]);
    var q := Next(p, es[1]);
    RunMore(q, es[2], []);
    RunMore(p, es[1], [es[2]]);
    RunMore(NEW_PORT, es[0], [es[1], es[2]]);
    assert es == [es[0]] + [es[1], es[2]] && [es[1], es[2]] == [es[1]] + [es[2]] && [es[2]] == [es[2]] + [];
    assert After(p, [es[1], es[2]]) == After(NEW_PORT, es);
    ClientsAreTold(es, 0);
  }

  lemma RunMore(p: Port, e: PortEvent, es: seq<PortEvent>)
    requires Inv(p) && Possible(p, e) && Feasible(Next(p, e), es)
    ensures Feasible(p, [e] + es) && After(p, [e] + es) == After(Next(p, e), es)
    ensures forall low :: LoweredFrom(p, [e] + es, low) == LoweredFrom(Next(p, e), es, LoweredBy(p, e, low))
  {
    assert ([e] + es)[0] == e && ([e] + es)[1..] == es;
  }
}
