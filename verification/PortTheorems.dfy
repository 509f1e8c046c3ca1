/** What holds of a port and its clients in every run. */
module PortTheorems {
  import opened Ports
  import opened Stutters

  // ---------- Status messages ----------

  /** The states without those that equal their predecessor. */
  function Changes(xs: seq<Status>): seq<Status> {
    if xs == [] then []
    else
      var n := |xs| - 1;
      if n > 0 && xs[n - 1] == xs[n] then Changes(xs[..n]) else Changes(xs[..n]) + [xs[n]]
  }

  predicate NoRepeats<T(==)>(xs: seq<T>) {
    forall i :: 0 < i < |xs| ==> xs[i - 1] != xs[i]
  }

  lemma {:induction false} ChangesFacts(xs: seq<Status>)
    ensures NoRepeats(Changes(xs)) && Stutter(xs, Changes(xs))
    ensures xs != [] ==> Changes(xs) != [] && Changes(xs)[|Changes(xs)| - 1] == xs[|xs| - 1]
  {
    if xs != [] {
      var n := |xs| - 1;
      ChangesFacts(xs[..n]);
      assert xs == xs[..n] + [xs[n]];
      if n > 0 && xs[n - 1] == xs[n] {
        var ys := Changes(xs);
        assert ys == ys[..|ys| - 1] + [xs[n]];
        StutterMore(xs[..n], ys[..|ys| - 1], xs[n]);
      } else {
        StutterMore(xs[..n], Changes(xs[..n]), xs[n]);
      }
    }
  }

  /** The client was sent exactly the changes of what its updates showed it. */
  predicate Told(c: Client) {
    && c.messages == Changes(c.seen)
    && (c.deliverInitialState <==> c.seen == [])
    && (c.seen != [] ==> c.seen[|c.seen| - 1] == Status(c.alive, c.lastLockedByOthers, c.lastLockedBySelf))
  }

  function Current(c: Client, alive: bool, locks: nat): Status {
    Status(alive, Others(locks, c.lockedBySelf), c.lockedBySelf)
  }

  predicate UpToDate(c: Client, alive: bool, locks: nat) {
    c.messages != [] && c.messages[|c.messages| - 1] == Current(c, alive, locks)
  }

  lemma UpdatedTells(c: Client, alive: bool, locks: nat)
    requires Told(c)
    ensures Told(Updated(c, alive, locks)) && UpToDate(Updated(c, alive, locks), alive, locks)
  {
    var d := Updated(c, alive, locks);
    assert d.seen[..|c.seen|] == c.seen;
    ChangesFacts(d.seen);
  }

  // ---------- Counting ----------

  function Weight(c: Client): nat {
    if c.live && c.lockedBySelf then 1 else 0
  }

  /** How many clients hold the lock. */
  function Holders(cs: seq<Client>): nat {
    if cs == [] then 0 else Weight(cs[0]) + Holders(cs[1..])
  }

  lemma {:induction false} HoldersAppend(a: seq<Client>, b: seq<Client>)
    ensures Holders(a + b) == Holders(a) + Holders(b)
  {
    if a == [] {
      assert a + b == b;
    } else {
      assert (a + b)[1..] == a[1..] + b;
      HoldersAppend(a[1..], b);
    }
  }

  lemma {:induction false} EntriesAppend(a: seq<Client>, b: seq<Client>, t: BufferType)
    ensures Entries(a + b, t) == Entries(a, t) + Entries(b, t)
  {
    if a == [] {
      assert a + b == b;
    } else {
      assert (a + b)[1..] == a[1..] + b;
      EntriesAppend(a[1..], b, t);
    }
  }

  lemma HoldersAround(cs: seq<Client>, i: nat)
    requires i < |cs|
    ensures Holders(cs) == Weight(cs[i]) + Holders(cs[..i] + cs[i + 1..])
  {
    assert cs == cs[..i] + cs[i..] && cs[i..][1..] == cs[i + 1..];
    HoldersAppend(cs[..i], cs[i..]);
    HoldersAppend(cs[..i], cs[i + 1..]);
  }

  lemma HoldersReplaced(cs: seq<Client>, i: nat, c: Client)
    requires i < |cs|
    ensures Holders(cs[i := c]) + Weight(cs[i]) == Holders(cs) + Weight(c)
  {
    HoldersAround(cs, i);
    HoldersAround(cs[i := c], i);
    assert cs[i := c][..i] + cs[i := c][i + 1..] == cs[..i] + cs[i + 1..];
  }

  lemma {:induction false} SomeHolder(cs: seq<Client>)
    ensures Holders(cs) > 0 <==> exists i :: 0 <= i < |cs| && Weight(cs[i]) == 1
  {
    if cs != [] {
      SomeHolder(cs[1..]);
      if i :| 0 <= i < |cs| && Weight(cs[i]) == 1 {
        if i > 0 {
          assert Weight(cs[1..][i - 1]) == 1;
        }
      }
      if j :| 0 <= j < |cs[1..]| && Weight(cs[1..][j]) == 1 {
        assert Weight(cs[j + 1]) == 1;
      }
    }
  }

  lemma {:induction false} SameCounts(cs: seq<Client>, ds: seq<Client>, t: BufferType)
    requires |cs| == |ds| && forall i :: 0 <= i < |cs| ==> SameGuards(cs[i], ds[i])
    ensures Holders(cs) == Holders(ds) && Entries(cs, t) == Entries(ds, t)
  {
    if cs != [] {
      assert SameGuards(cs[0], ds[0]);
      forall i | 0 <= i < |cs[1..]| ensures SameGuards(cs[1..][i], ds[1..][i]) {
        assert SameGuards(cs[i + 1], ds[i + 1]);
      }
      SameCounts(cs[1..], ds[1..], t);
    }
  }

  predicate Counted(p: Port) {
    |p.subscribers| == BUFFER_TYPES && forall t: BufferType :: p.subscribers[t] == Entries(p.clients, t)
  }

  lemma SameClientsCounted(p: Port, q: Port)
    requires SameClients(p, q)
    ensures Holders(q.clients) == Holders(p.clients) && (Counted(p) ==> Counted(q))
  {
    SameCounts(p.clients, q.clients, RAW);
    forall t: BufferType ensures Entries(p.clients, t) == Entries(q.clients, t) {
      SameCounts(p.clients, q.clients, t);
    }
  }

  // ---------- Walks ----------

  ghost predicate Closed(P: Client -> bool, alive: bool, locks: nat) {
    && (forall c :: P(c) ==> P(Updated(c, alive, locks)))
    && (forall c, k :: P(c) ==> P(Offered(c, k)))
  }

  predicate All(P: Client -> bool, cs: seq<Client>) {
    forall i :: 0 <= i < |cs| ==> P(cs[i])
  }

  /** Whatever updates and deliveries keep, walks keep, however deep they nest. */
  lemma {:induction false} WalkedKeeps(p: Port, v: Visit, i: nat, cyclic: bool, P: Client -> bool)
    requires i <= |p.clients| && Closed(P, p.alive, p.locks) && All(P, p.clients)
    ensures All(P, Walked(p, v, i, cyclic).clients)
    decreases v, 2, |p.clients| - i
  {
    if i < |p.clients| {
      if p.clients[i].live {
        VisitedKeeps(p, v, i, P);
        WalkedKeeps(Visited(p, v, i), v, i + 1, cyclic, P);
      } else if cyclic {
        WalkedKeeps(p, v, i + 1, cyclic, P);
      } else {
        WalkedKeeps(Erased(p, i), v, i, cyclic, P);
      }
    }
  }

  lemma {:induction false} VisitedKeeps(p: Port, v: Visit, i: nat, P: Client -> bool)
    requires i < |p.clients| && Closed(P, p.alive, p.locks) && All(P, p.clients)
    ensures All(P, Visited(p, v, i).clients)
    decreases v, 1, 0
  {
    match v
    case UpdateState =>
    case DeliverBuffer(packet) =>
    case QueryForPayload(answers) =>
      if p.clients[i].number < |answers| {
        AnsweredKeeps(p, v, p.clients[i].number, 0, P);
      }
  }

  lemma {:induction false} AnsweredKeeps(p: Port, v: Visit, k: nat, j: nat, P: Client -> bool)
    requires v.QueryForPayload? && k < |v.answers| && j <= |v.answers[k].walks|
    requires Closed(P, p.alive, p.locks) && All(P, p.clients)
    ensures All(P, Answered(p, v, k, j).clients)
    decreases v, 0, |v.answers[k].walks| - j
  {
    if j < |v.answers[k].walks| {
      WalkedKeeps(p, v.answers[k].walks[j], 0, true, P);
      AnsweredKeeps(Walked(p, v.answers[k].walks[j], 0, true), v, k, j + 1, P);
    }
  }

  predicate LiveUpTo(cs: seq<Client>, n: nat)
    requires n <= |cs|
  {
    forall i :: 0 <= i < n ==> cs[i].live
  }

  predicate AllLive(cs: seq<Client>) {
    LiveUpTo(cs, |cs|)
  }

  lemma ErasedCounts(p: Port, i: nat)
    requires i < |p.clients| && !p.clients[i].live
    ensures Holders(Erased(p, i).clients) == Holders(p.clients)
  {
    HoldersAround(p.clients, i);
  }

  lemma StillLive(p: Port, q: Port, i: nat)
    requires SameClients(p, q) && i < |p.clients| && LiveUpTo(p.clients, i) && p.clients[i].live
    ensures LiveUpTo(q.clients, i + 1)
  {
    forall k | 0 <= k < i + 1 ensures q.clients[k].live {
      assert SameGuards(p.clients[k], q.clients[k]);
    }
  }

  /** Only the expired entries are gone; without any, the list is still the same. */
  predicate Thinned(p: Port, q: Port) {
    && Holders(q.clients) == Holders(p.clients) && |q.clients| <= |p.clients|
    && (|q.clients| == |p.clients| ==> SameClients(p, q))
  }

  lemma ThinnedAfterVisit(p: Port, q: Port, r: Port)
    requires SameClients(p, q) && Thinned(q, r)
    ensures Thinned(p, r)
  {
    SameClientsCounted(p, q);
    SameClientsTransitive(p, q, r);
  }

  lemma ThinnedAfterErasing(p: Port, i: nat, r: Port)
    requires i < |p.clients| && !p.clients[i].live && Thinned(Erased(p, i), r)
    ensures Thinned(p, r)
  {
    ErasedCounts(p, i);
  }

  /** The outermost walk removes the expired entries and only those. */
  lemma {:induction false} WalkedErases(p: Port, v: Visit, i: nat)
    requires i <= |p.clients| && LiveUpTo(p.clients, i)
    ensures AllLive(Walked(p, v, i, false).clients) && Thinned(p, Walked(p, v, i, false))
    decreases |p.clients| - i
  {
    if i < |p.clients| {
      if p.clients[i].live {
        var q := Visited(p, v, i);
        StillLive(p, q, i);
        WalkedErases(q, v, i + 1);
        ThinnedAfterVisit(p, q, Walked(q, v, i + 1, false));
      } else {
        WalkedErases(Erased(p, i), v, i);
        ThinnedAfterErasing(p, i, Walked(Erased(p, i), v, i, false));
      }
    }
  }

  lemma SameClientsTransitive(p: Port, q: Port, r: Port)
    requires SameClients(p, q)
    ensures SameClients(q, r) ==> SameClients(p, r)
  {
    if SameClients(q, r) {
      forall i | 0 <= i < |p.clients| ensures SameGuards(p.clients[i], r.clients[i]) {
        assert SameGuards(p.clients[i], q.clients[i]);
        assert SameGuards(q.clients[i], r.clients[i]);
      }
    }
  }

  /** Counters, told messages: what is right even in the middle of an operation. */
  ghost predicate Books(p: Port) {
    Counted(p) && p.locks == Holders(p.clients) && All(Told, p.clients)
  }

  lemma ToldClosed(alive: bool, locks: nat)
    ensures Closed(Told, alive, locks)
  {
    forall c | Told(c) ensures Told(Updated(c, alive, locks)) {
      UpdatedTells(c, alive, locks);
    }
  }

  lemma ForEachKeeps(p: Port, v: Visit)
    requires Books(p)
    ensures Books(ForEach(p, v)) && AllLive(ForEach(p, v).clients) && SamePort(p, ForEach(p, v))
    ensures |ForEach(p, v).clients| <= |p.clients|
  {
    var q := Walked(p, v, 0, false);
    ToldClosed(p.alive, p.locks);
    WalkedKeeps(p, v, 0, false, Told);
    WalkedErases(p, v, 0);
    if |q.clients| == |p.clients| {
      SameClientsCounted(p, q);
    }
  }

  /** Every living client was last told the current locks, and that the device is alive
      or not as b says. */
  predicate Believe(p: Port, b: bool) {
    forall i :: 0 <= i < |p.clients| && p.clients[i].live ==> UpToDate(p.clients[i], b, p.locks)
  }

  predicate BelieveUpTo(p: Port, n: nat, b: bool)
    requires n <= |p.clients|
  {
    forall i :: 0 <= i < n && p.clients[i].live ==> UpToDate(p.clients[i], b, p.locks)
  }

  lemma OneUpdated(p: Port, i: nat)
    requires i < |p.clients| && All(Told, p.clients) && BelieveUpTo(p, i, p.alive)
    ensures All(Told, Visited(p, UpdateState, i).clients) && BelieveUpTo(Visited(p, UpdateState, i), i + 1, p.alive)
  {
    UpdatedTells(p.clients[i], p.alive, p.locks);
  }

  /** The walk from position i on ends with this belief. */
  predicate Ends(p: Port, v: Visit, i: nat, cyclic: bool, b: bool)
    requires i <= |p.clients|
  {
    var q := Walked(p, v, i, cyclic);
    All(Told, q.clients) && Believe(q, b)
  }

  lemma EndsAfterVisit(p: Port, v: Visit, i: nat, cyclic: bool, b: bool)
    requires i < |p.clients| && p.clients[i].live && Ends(Visited(p, v, i), v, i + 1, cyclic, b)
    ensures Ends(p, v, i, cyclic, b)
  {
  }

  lemma EndsAfterExpired(p: Port, v: Visit, i: nat, cyclic: bool, b: bool)
    requires i < |p.clients| && !p.clients[i].live
    requires if cyclic then Ends(p, v, i + 1, cyclic, b) else Ends(Erased(p, i), v, i, cyclic, b)
    ensures Ends(p, v, i, cyclic, b)
  {
  }

  lemma BeliefOfAll(p: Port, cyclic: bool)
    requires All(Told, p.clients) && BelieveUpTo(p, |p.clients|, p.alive)
    ensures Ends(p, UpdateState, |p.clients|, cyclic, p.alive)
  {
  }

  /** A walk that updates leaves every living client with the truth, nested or not. */
  lemma {:induction false} UpdatingWalk(p: Port, i: nat, cyclic: bool)
    requires i <= |p.clients| && All(Told, p.clients) && BelieveUpTo(p, i, p.alive)
    ensures Ends(p, UpdateState, i, cyclic, p.alive)
    decreases |p.clients| - i
  {
    if i == |p.clients| {
      BeliefOfAll(p, cyclic);
    } else if p.clients[i].live {
      OneUpdated(p, i);
      UpdatingWalk(Visited(p, UpdateState, i), i + 1, cyclic);
      EndsAfterVisit(p, UpdateState, i, cyclic, p.alive);
    } else {
      if cyclic {
        UpdatingWalk(p, i + 1, cyclic);
      } else {
        UpdatingWalk(Erased(p, i), i, cyclic);
      }
      EndsAfterExpired(p, UpdateState, i, cyclic, p.alive);
    }
  }

  /** After a propagation the last message of every client tells the current state. */
  lemma PropagateInforms(p: Port)
    requires Books(p)
    ensures Books(Propagate(p)) && SamePort(p, Propagate(p))
    ensures AllLive(Propagate(p).clients) && Believe(Propagate(p), p.alive)
    ensures |Propagate(p).clients| <= |p.clients|
  {
    ForEachKeeps(p, UpdateState);
    UpdatingWalk(p, 0, false);
  }

  // ---------- What a walk does to whom ----------

  function Effect(v: Visit, alive: bool, locks: nat, c: Client): Client
    requires !v.QueryForPayload?
  {
    match v
    case UpdateState => Updated(c, alive, locks)
    case DeliverBuffer(packet) => Offered(c, packet)
  }

  function Survivors(cs: seq<Client>, v: Visit, alive: bool, locks: nat): seq<Client>
    requires !v.QueryForPayload?
  {
    if cs == [] then []
    else (if cs[0].live then [Effect(v, alive, locks, cs[0])] else []) + Survivors(cs[1..], v, alive, locks)
  }

  lemma VisitedRest(p: Port, v: Visit, i: nat)
    requires i < |p.clients| && !v.QueryForPayload?
    ensures Visited(p, v, i).clients[..i + 1] == p.clients[..i] + [Effect(v, p.alive, p.locks, p.clients[i])]
    ensures Visited(p, v, i).clients[i + 1..] == p.clients[i + 1..]
  {
  }

  lemma ErasedRest(p: Port, i: nat)
    requires i < |p.clients|
    ensures Erased(p, i).clients[..i] == p.clients[..i] && Erased(p, i).clients[i..] == p.clients[i + 1..]
  {
  }

  lemma SurvivorsFrom(cs: seq<Client>, i: nat, v: Visit, alive: bool, locks: nat)
    requires i < |cs| && !v.QueryForPayload?
    ensures Survivors(cs[i..], v, alive, locks)
         == (if cs[i].live then [Effect(v, alive, locks, cs[i])] else []) + Survivors(cs[i + 1..], v, alive, locks)
  {
    assert cs[i..][0] == cs[i] && cs[i..][1..] == cs[i + 1..];
  }

  /** The clients of a walk, and nothing else of it. */
  function WalkedClients(p: Port, v: Visit, i: nat): seq<Client>
    requires i <= |p.clients|
  {
    Walked(p, v, i, false).clients
  }

  lemma ReachedOne(p: Port, v: Visit, i: nat, rest: seq<Client>)
    requires i < |p.clients| && !v.QueryForPayload? && p.clients[i].live
    requires WalkedClients(Visited(p, v, i), v, i + 1) == Visited(p, v, i).clients[..i + 1] + rest
    ensures WalkedClients(p, v, i) == p.clients[..i] + ([Effect(v, p.alive, p.locks, p.clients[i])] + rest)
  {
    VisitedRest(p, v, i);
  }

  lemma ReachedNone(p: Port, v: Visit, i: nat, rest: seq<Client>)
    requires i < |p.clients| && !p.clients[i].live
    requires WalkedClients(Erased(p, i), v, i) == Erased(p, i).clients[..i] + rest
    ensures WalkedClients(p, v, i) == p.clients[..i] + ([] + rest)
  {
    ErasedRest(p, i);
  }

  /** A propagation or delivery reaches every living client exactly once, in order,
      and leaves nothing else on the list. */
  lemma {:induction false} WalkReachesAll(p: Port, v: Visit, i: nat)
    requires i <= |p.clients| && !v.QueryForPayload?
    ensures WalkedClients(p, v, i) == p.clients[..i] + Survivors(p.clients[i..], v, p.alive, p.locks)
    decreases |p.clients| - i
  {
    if i < |p.clients| {
      var rest := Survivors(p.clients[i + 1..], v, p.alive, p.locks);
      SurvivorsFrom(p.clients, i, v, p.alive, p.locks);
      if p.clients[i].live {
        VisitedRest(p, v, i);
        WalkReachesAll(Visited(p, v, i), v, i + 1);
        ReachedOne(p, v, i, rest);
      } else {
        ErasedRest(p, i);
        WalkReachesAll(Erased(p, i), v, i);
        ReachedNone(p, v, i, rest);
      }
    }
  }

  lemma {:induction false} NoSubscriber(cs: seq<Client>, packet: Packet, i: nat)
    requires Entries(cs, packet.bufferType) == 0 && i < |cs|
    ensures !Wants(cs[i].subscription, packet)
  {
    if i > 0 {
      NoSubscriber(cs[1..], packet, i - 1);
    }
  }

  lemma {:induction false} IdleWalk(p: Port, packet: Packet, i: nat)
    requires i <= |p.clients| && forall k :: 0 <= k < |p.clients| ==> Offered(p.clients[k], packet) == p.clients[k]
    ensures Walked(p, DeliverBuffer(packet), i, true) == p
    decreases |p.clients| - i
  {
    if i < |p.clients| {
      assert p.clients[i := p.clients[i]] == p.clients;
      IdleWalk(p, packet, i + 1);
    }
  }

  lemma {:induction false} IdleSurvivors(cs: seq<Client>, packet: Packet, alive: bool, locks: nat)
    requires forall k :: 0 <= k < |cs| ==> Offered(cs[k], packet) == cs[k]
    ensures forall c :: c in Survivors(cs, DeliverBuffer(packet), alive, locks) <==> c in cs && c.live
  {
    if cs != [] {
      assert forall k :: 0 <= k < |cs[1..]| ==> cs[1..][k] == cs[k + 1];
      IdleSurvivors(cs[1..], packet, alive, locks);
      assert forall c :: c in cs <==> c == cs[0] || c in cs[1..];
    }
  }

  /** Not walking the list when the counter is zero loses nothing: the walk would
      have left every client as it is. */
  lemma SkippingDropsNothing(p: Port, packet: Packet)
    requires Counted(p) && !RequiresBufferType(p, packet.bufferType)
    ensures Walked(p, DeliverBuffer(packet), 0, true) == p
    ensures forall c :: c in ForEach(p, DeliverBuffer(packet)).clients <==> c in p.clients && c.live
  {
    forall k | 0 <= k < |p.clients| ensures Offered(p.clients[k], packet) == p.clients[k] {
      NoSubscriber(p.clients, packet, k);
    }
    IdleWalk(p, packet, 0);
    WalkReachesAll(p, DeliverBuffer(packet), 0);
    assert p.clients[0..] == p.clients;
    IdleSurvivors(p.clients, packet, p.alive, p.locks);
  }

  // ---------- The invariant ----------

  /** The protocol runs exactly while nobody holds the lock. */
  predicate Mode(p: Port) {
    && (p.started <==> p.wasOpened && p.locks == 0)
    && (p.alive ==> p.started)
    && (!p.wasOpened ==> p.clients == [])
  }

  ghost predicate Inv(p: Port) {
    Books(p) && Mode(p)
  }

  /** Just after a propagation. */
  ghost predicate Settled(p: Port) {
    Books(p) && Mode(p) && p.wasOpened && Believe(p, p.alive)
  }

  lemma SettledInv(p: Port)
    requires Settled(p)
    ensures Inv(p)
  {
  }

  lemma NewPortInv()
    ensures Inv(NEW_PORT)
  {
  }

  lemma PropagateSettles(p: Port)
    requires Books(p) && Mode(p) && p.wasOpened
    ensures Settled(Propagate(p))
  {
    PropagateInforms(p);
  }

  lemma OpenSettles(p: Port)
    requires Books(p) && p.locks == 0
    ensures Settled(Open(p))
  {
    PropagateSettles(p.(wasOpened := true, started := true, alive := false));
  }

  lemma SuspendSettles(p: Port)
    requires Books(p.(locks := p.locks + 1)) && Mode(p) && p.wasOpened
    ensures Settled(Suspend(p))
  {
    var q := p.(locks := p.locks + 1);
    if q.locks == 1 {
      PropagateSettles(q.(started := false, alive := false));
      PropagateSettles(StopProtocol(q));
    } else {
      PropagateSettles(q);
    }
  }

  lemma ResumeSettles(p: Port)
    requires p.locks > 0 && Books(p.(locks := p.locks - 1)) && Mode(p) && p.wasOpened
    ensures Settled(Resume(p))
  {
    var q := p.(locks := p.locks - 1);
    if q.locks == 0 {
      OpenSettles(q);
    } else {
      PropagateSettles(q);
    }
  }

  lemma ReplacedBooks(p: Port, i: nat, c: Client, locks: nat)
    requires Books(p) && i < |p.clients| && Told(c) && c.subscription == p.clients[i].subscription
    requires locks + Weight(p.clients[i]) == p.locks + Weight(c)
    ensures Books(p.(clients := p.clients[i := c], locks := locks))
  {
    HoldersReplaced(p.clients, i, c);
    forall t: BufferType ensures Entries(p.clients[i := c], t) == Entries(p.clients, t) {
      EntriesReplaced(p.clients, i, c, t);
    }
  }

  lemma EntriesReplaced(cs: seq<Client>, i: nat, c: Client, t: BufferType)
    requires i < |cs| && c.subscription == cs[i].subscription
    ensures Entries(cs[i := c], t) == Entries(cs, t)
  {
    assert cs == cs[..i] + ([cs[i]] + cs[i + 1..]) && cs[i := c] == cs[..i] + ([c] + cs[i + 1..]);
    EntriesAppend(cs[..i], [cs[i]] + cs[i + 1..], t);
    EntriesAppend(cs[..i], [c] + cs[i + 1..], t);
    EntriesAppend([cs[i]], cs[i + 1..], t);
    EntriesAppend([c], cs[i + 1..], t);
  }

  lemma HeldLock(p: Port, i: nat)
    requires Books(p) && i < |p.clients| && Weight(p.clients[i]) == 1
    ensures p.locks > 0
  {
    HoldersAround(p.clients, i);
  }

  lemma AcquireKeeps(p: Port, i: nat)
    requires Inv(p) && IsLive(p, i)
    ensures Inv(Acquire(p, i))
    ensures !p.clients[i].lockedBySelf ==> Settled(Acquire(p, i))
  {
    if !p.clients[i].lockedBySelf {
      var c := p.clients[i].(lockedBySelf := true);
      ReplacedBooks(p, i, c, p.locks + 1);
      SuspendSettles(p.(clients := p.clients[i := c]));
      SettledInv(Acquire(p, i));
    }
  }

  lemma ReleaseKeeps(p: Port, i: nat)
    requires Inv(p) && IsLive(p, i)
    ensures p.clients[i].lockedBySelf ==> p.locks > 0 && Settled(Release(p, i))
    ensures Inv(Release(p, i))
  {
    if p.clients[i].lockedBySelf {
      var c := p.clients[i].(lockedBySelf := false);
      HeldLock(p, i);
      ReplacedBooks(p, i, c, p.locks - 1);
      ResumeSettles(p.(clients := p.clients[i := c]));
      SettledInv(Release(p, i));
    }
  }

  lemma DestroyKeeps(p: Port, i: nat)
    requires Inv(p) && IsLive(p, i)
    ensures p.clients[i].lockedBySelf ==> p.locks > 0 && Settled(Destroy(p, i))
    ensures Inv(Destroy(p, i))
  {
    var c := p.clients[i].(live := false);
    if p.clients[i].lockedBySelf {
      HeldLock(p, i);
      ReplacedBooks(p, i, c, p.locks - 1);
      ResumeSettles(p.(clients := p.clients[i := c]));
      SettledInv(Destroy(p, i));
    } else {
      ReplacedBooks(p, i, c, p.locks);
    }
  }

  lemma ListedBooks(p: Port, c: Client)
    requires Books(p) && Told(c) && Weight(c) == 0
    ensures var t := c.subscription.bufferType;
      Books(p.(clients := p.clients + [c], subscribers := p.subscribers[t := p.subscribers[t] + 1]))
  {
    var t := c.subscription.bufferType;
    var q := p.(clients := p.clients + [c], subscribers := p.subscribers[t := p.subscribers[t] + 1]);
    HoldersAppend(p.clients, [c]);
    forall u: BufferType ensures q.subscribers[u] == Entries(q.clients, u) {
      EntriesAppend(p.clients, [c], u);
    }
  }

  lemma AddedBooks(p: Port, c: Client)
    requires Books(p) && Told(c) && Weight(c) == 0
    ensures Books(Add(p, c)) && SamePort(p, Add(p, c))
  {
    var t := c.subscription.bufferType;
    var q := p.(clients := p.clients + [c], subscribers := p.subscribers[t := p.subscribers[t] + 1]);
    ListedBooks(p, c);
    if q.started {
      PropagateInforms(q);
    }
  }

  lemma JoinSettles(p: Port, number: nat, subscription: Subscription)
    requires Inv(p)
    ensures Settled(Join(p, NewClient(number, subscription)))
  {
    var c := NewClient(number, subscription);
    AddedBooks(p, c);
    var q := Add(p, c);
    if q.wasOpened {
      PropagateSettles(q);
    } else {
      OpenSettles(q);
      PropagateSettles(Open(q));
    }
  }

  lemma InvBacksLocks(p: Port)
    requires Inv(p)
    ensures LocksBacked(p)
  {
    forall i: nat | IsLive(p, i) && p.clients[i].lockedBySelf ensures p.locks > 0 {
      HeldLock(p, i);
    }
  }

  /** The events that end with a propagation. */
  predicate Propagates(p: Port, e: PortEvent) {
    match e
    case Joins(_, _) => true
    case Acquires(i) => IsLive(p, i) && !p.clients[i].lockedBySelf
    case Releases(i) => IsLive(p, i) && p.clients[i].lockedBySelf
    case Dies(i) => IsLive(p, i) && p.clients[i].lockedBySelf
    case Revived => true
    case BaudRateChanged => true
    case _ => false
  }

  lemma ReactKeeps(p: Port, e: PortEvent)
    requires Inv(p) && Possible(p, e)
    ensures LocksBacked(p) && Inv(React(p, e))
    ensures Propagates(p, e) ==> Settled(React(p, e))
  {
    InvBacksLocks(p);
    match e
    case Joins(number, subscription) =>
      JoinSettles(p, number, subscription);
      SettledInv(React(p, e));
    case Acquires(i) => AcquireKeeps(p, i);
    case Releases(i) => ReleaseKeeps(p, i);
    case Dies(i) => DestroyKeeps(p, i);
    case Revived =>
      PropagateSettles(p.(alive := true));
      SettledInv(React(p, e));
    case BaudRateChanged =>
      PropagateSettles(p);
      SettledInv(React(p, e));
    case StateTimedOut(alive) => LoweredInv(p, alive);
    case FrameForClients(packet, _) => ForEachKeeps(p, DeliverBuffer(packet));
    case QueriesClients(answers) => ForEachKeeps(p, QueryForPayload(answers));
  }

  lemma LoweredInv(p: Port, alive: bool)
    requires Inv(p) && p.started && (alive ==> p.alive)
    ensures Inv(p.(alive := alive))
  {
  }

  // ---------- Runs ----------

  ghost function Next(p: Port, e: PortEvent): (q: Port)
    requires Inv(p) && Possible(p, e)
    ensures Inv(q)
  {
    ReactKeeps(p, e);
    React(p, e)
  }

  ghost predicate Feasible(p: Port, es: seq<PortEvent>)
    requires Inv(p)
    decreases |es|
  {
    es == [] || (Possible(p, es[0]) && Feasible(Next(p, es[0]), es[1..]))
  }

  ghost function After(p: Port, es: seq<PortEvent>): (q: Port)
    requires Inv(p) && Feasible(p, es)
    ensures Inv(q)
    decreases |es|
  {
    if es == [] then p
    else After(Next(p, es[0]), es[1..])
  }

  /** Everything that can happen to a port from its creation on. */
  ghost predicate Run(es: seq<PortEvent>) {
    NewPortInv();
    Feasible(NEW_PORT, es)
  }

  ghost function Reached(es: seq<PortEvent>): (p: Port)
    requires Run(es)
    ensures Inv(p)
  {
    NewPortInv();
    After(NEW_PORT, es)
  }

  predicate Holds(p: Port, i: nat) {
    IsLive(p, i) && p.clients[i].lockedBySelf
  }

  lemma OthersExact(p: Port, i: nat)
    requires p.locks == Holders(p.clients) && IsLive(p, i)
    ensures Others(p.locks, p.clients[i].lockedBySelf) <==> exists j: nat :: j != i && Holds(p, j)
  {
    var rest := p.clients[..i] + p.clients[i + 1..];
    HoldersAround(p.clients, i);
    SomeHolder(rest);
    if j: nat :| j != i && Holds(p, j) {
      assert Weight(rest[if j < i then j else j - 1]) == 1;
    }
    if k :| 0 <= k < |rest| && Weight(rest[k]) == 1 {
      assert Holds(p, if k < i then k else k + 1);
    }
  }

  /** The lock: in every run, for any number of clients, the counter is the number of
      living clients that hold it, and the protocol runs if and only if there is none. */
  lemma LockCountsHolders(es: seq<PortEvent>)
    requires Run(es)
    ensures var p := Reached(es);
      && p.locks == Holders(p.clients)
      && (p.wasOpened ==> (p.started <==> !exists i: nat :: Holds(p, i)))
  {
    var p := Reached(es);
    SomeHolder(p.clients);
    if i: nat :| Holds(p, i) {
      assert Weight(p.clients[i]) == 1;
    }
    if i :| 0 <= i < |p.clients| && Weight(p.clients[i]) == 1 {
      assert Holds(p, i);
    }
  }

  ghost predicate ToldExactly(p: Port, i: nat)
    requires IsLive(p, i)
  {
    var messages := p.clients[i].messages;
    && messages != []
    && var last := messages[|messages| - 1];
      && last.alive == p.alive && last.lockedBySelf == p.clients[i].lockedBySelf
      && (last.lockedByOthers <==> exists j: nat :: j != i && Holds(p, j))
  }

  lemma SettledExact(p: Port, i: nat)
    requires Settled(p) && IsLive(p, i)
    ensures ToldExactly(p, i)
  {
    OthersExact(p, i);
    assert UpToDate(p.clients[i], p.alive, p.locks);
  }

  /** And right after an event that propagates it is right about everything. */
  lemma PropagationIsExact(es: seq<PortEvent>, e: PortEvent, i: nat)
    requires Run(es) && Possible(Reached(es), e) && Propagates(Reached(es), e)
    requires IsLive(Next(Reached(es), e), i)
    ensures ToldExactly(Next(Reached(es), e), i)
  {
    ReactKeeps(Reached(es), e);
    SettledExact(Next(Reached(es), e), i);
  }

  /** Subscriptions: in every run the counters say exactly what is on the list, so a
      frame that is not offered is one nobody wants. */
  lemma SubscribersCounted(es: seq<PortEvent>, packet: Packet)
    requires Run(es)
    ensures var p := Reached(es);
      && Counted(p)
      && (!RequiresBufferType(p, packet.bufferType) ==>
            forall i: nat :: IsLive(p, i) ==> !Wants(p.clients[i].subscription, packet))
  {
    var p := Reached(es);
    if !RequiresBufferType(p, packet.bufferType) {
      forall i: nat | IsLive(p, i) ensures !Wants(p.clients[i].subscription, packet) {
        NoSubscriber(p.clients, packet, i);
      }
    }
  }

  // ---------- A client that joins ----------

  lemma {:induction false} SurvivorsLast(cs: seq<Client>, c: Client, v: Visit, alive: bool, locks: nat)
    requires c.live && !v.QueryForPayload?
    ensures Survivors(cs + [c], v, alive, locks) == Survivors(cs, v, alive, locks) + [Effect(v, alive, locks, c)]
  {
    if cs == [] {
      assert cs + [c] == [c] && [c][1..] == [];
    } else {
      assert (cs + [c])[0] == cs[0] && (cs + [c])[1..] == cs[1..] + [c];
      SurvivorsLast(cs[1..], c, v, alive, locks);
    }
  }

  predicate LastIsUnlocked(p: Port) {
    p.clients != [] && var c := p.clients[|p.clients| - 1]; !c.lockedBySelf && !c.lockedByOthers
  }

  lemma PropagatedLast(p: Port, cs: seq<Client>, c: Client)
    requires p.clients == cs + [c] && p.locks == 0 && c.live && !c.lockedBySelf
    ensures LastIsUnlocked(Propagate(p))
  {
    WalkReachesAll(p, UpdateState, 0);
    assert p.clients[0..] == p.clients;
    SurvivorsLast(cs, c, UpdateState, p.alive, p.locks);
  }

  /** When a client's lock guard is initialised, right after the client was added, it
      knows of no lock, although the list was perhaps already walked for it. */
  lemma GuardInitialised(p: Port, number: nat, subscription: Subscription)
    requires Inv(p)
    ensures var q := Add(p, NewClient(number, subscription));
      LastIsUnlocked(if q.wasOpened then q else Open(q))
  {
    var c := NewClient(number, subscription);
    var t := subscription.bufferType;
    var q := p.(clients := p.clients + [c], subscribers := p.subscribers[t := p.subscribers[t] + 1]);
    if q.started {
      PropagatedLast(q, p.clients, c);
    } else if !q.wasOpened {
      PropagatedLast(q.(wasOpened := true, started := true, alive := false), p.clients, c);
    }
  }
}
