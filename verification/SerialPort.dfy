/** The serial port handler, its clients and their guards, updated in place.

  Every method is proved to do what module Ports says.  The protocol entity is seen
  here only as running or not, and alive or not; messages and packets for a client are
  collected in fields that stand for its connection.
 */
module SerialPortHandlers {
  import opened Ports
  import opened PortTheorems

  class SerialPortLock {
    var nbrOfLocks: nat

    constructor ()
      ensures nbrOfLocks == 0
    {
      nbrOfLocks := 0;
    }

    /** Tells whether this was the first lock. */
    method SuspendSerialPort() returns (first: bool)
      modifies this
      ensures nbrOfLocks == old(nbrOfLocks) + 1 && first == (old(nbrOfLocks) == 0)
    {
      nbrOfLocks := nbrOfLocks + 1;
      return nbrOfLocks == 1;
    }

    /** Tells whether this was the last lock. */
    method ResumeSerialPort() returns (last: bool)
      requires nbrOfLocks > 0
      modifies this
      ensures nbrOfLocks == old(nbrOfLocks) - 1 && last == (old(nbrOfLocks) == 1)
    {
      nbrOfLocks := nbrOfLocks - 1;
      return nbrOfLocks == 0;
    }

    function GetLockHolders(): nat
      reads this
    {
      nbrOfLocks
    }
  }

  class AliveGuard {
    var alive: bool

    constructor ()
      ensures alive
    {
      alive := true;
    }

    method UpdateSerialPortState(alive: bool) returns (changed: bool)
      modifies this
      ensures this.alive == alive && changed == (old(this.alive) != alive)
    {
      changed := this.alive != alive;
      this.alive := alive;
    }
  }

  class LockGuard {
    var lockedBySelf: bool
    var lockedByOthers: bool
    var lastLockedBySelf: bool
    var lastLockedByOthers: bool

    constructor ()
      ensures !lockedBySelf && !lockedByOthers && !lastLockedBySelf && !lastLockedByOthers
    {
      lockedBySelf, lockedByOthers := false, false;
      lastLockedBySelf, lastLockedByOthers := false, false;
    }

    method UpdateSerialPortState(lockHolders: nat) returns (changed: bool)
      modifies this
      ensures lockedBySelf == old(lockedBySelf) == lastLockedBySelf
      ensures lockedByOthers == Others(lockHolders, lockedBySelf) == lastLockedByOthers
      ensures changed <==> lastLockedBySelf != old(lastLockedBySelf) || lastLockedByOthers != old(lastLockedByOthers)
    {
      if lockedBySelf {
        lockedByOthers := lockHolders > 1;
      } else {
        lockedByOthers := lockHolders > 0;
      }
      if lastLockedBySelf != lockedBySelf || lastLockedByOthers != lockedByOthers {
        lastLockedBySelf := lockedBySelf;
        lastLockedByOthers := lockedByOthers;
        return true;
      } else {
        return false;
      }
    }

    method SetLockedBySelf(port: SerialPortHandler, ghost i: nat, locked: bool)
      requires port.Wired() && i < |port.handlers| && port.handlers[i].lockGuard == this
      modifies this
      ensures port.Wired()
      ensures var p := old(port.View());
        port.View() == p.(clients := p.clients[i := p.clients[i].(lockedBySelf := locked)])
    {
      ghost var cs := Views(port.handlers);
      lockedBySelf := locked;
      ViewsChanged(port.handlers, cs, i, cs[i].(lockedBySelf := locked));
    }

    /** Client i of the port asks for the lock, through its guard. */
    method AcquireLock(port: SerialPortHandler, ghost i: nat)
      requires port.Wired() && !port.cyclicCallGuard.locked && i < |port.handlers| && port.handlers[i].lockGuard == this
      modifies port.Footprint()
      ensures port.Wired() && port.View() == Acquire(old(port.View()), i)
    {
      if !lockedBySelf {
        SetLockedBySelf(port, i, true);
        port.SuspendSerialPort();
      }
    }

    method ReleaseLock(port: SerialPortHandler, ghost i: nat)
      requires port.Wired() && !port.cyclicCallGuard.locked && i < |port.handlers| && port.handlers[i].lockGuard == this
      requires lockedBySelf ==> port.serialPortLock.nbrOfLocks > 0
      modifies port.Footprint()
      ensures port.Wired() && port.View() == Release(old(port.View()), i)
    {
      if lockedBySelf {
        SetLockedBySelf(port, i, false);
        port.ResumeSerialPort();
      }
    }

    /** The destructor. */
    method Destruct(port: SerialPortHandler)
      requires port.Wired() && !port.cyclicCallGuard.locked && (lockedBySelf ==> port.serialPortLock.nbrOfLocks > 0)
      modifies port.Footprint()
      ensures port.Wired() && port.View() == if old(lockedBySelf) then Resume(old(port.View())) else old(port.View())
    {
      if lockedBySelf {
        port.ResumeSerialPort();
      }
    }
  }

  class HdlcdServerHandler {
    const number: nat
    const subscription: Subscription
    const aliveGuard: AliveGuard
    const lockGuard: LockGuard
    var live: bool
    var deliverInitialState: bool
    var messages: seq<Status>
    var packets: seq<Packet>
    ghost var seen: seq<Status>

    ghost function View(): Client
      reads this, aliveGuard, lockGuard
    {
      Client(number, live, subscription, deliverInitialState, aliveGuard.alive,
             lockGuard.lockedBySelf, lockGuard.lockedByOthers,
             lockGuard.lastLockedBySelf, lockGuard.lastLockedByOthers, messages, packets, seen)
    }

    constructor (number: nat, subscription: Subscription)
      ensures View() == NewClient(number, subscription)
      ensures fresh(aliveGuard) && fresh(lockGuard)
    {
      this.number := number;
      this.subscription := subscription;
      aliveGuard := new AliveGuard();
      lockGuard := new LockGuard();
      live := true;
      deliverInitialState := true;
      messages, packets, seen := [], [], [];
    }

    method UpdateSerialPortState(alive: bool, lockHolders: nat)
      modifies this, aliveGuard, lockGuard
      ensures View() == Updated(old(View()), alive, lockHolders)
    {
      var deliverChangedState := deliverInitialState;
      deliverInitialState := false;
      var aliveChanged := aliveGuard.UpdateSerialPortState(alive);
      var lockChanged := lockGuard.UpdateSerialPortState(lockHolders);
      deliverChangedState := deliverChangedState || aliveChanged || lockChanged;
      var now := Status(aliveGuard.alive, lockGuard.lockedByOthers, lockGuard.lockedBySelf);
      if deliverChangedState {
        messages := messages + [now];
      }
      seen := seen + [now];
    }

    method DeliverBufferToClient(packet: Packet)
      modifies this
      ensures View() == Offered(old(View()), packet)
    {
      var deliver := packet.bufferType == subscription.bufferType;
      if (packet.wasSent && !subscription.deliverSent) || (!packet.wasSent && !subscription.deliverRcvd) {
        deliver := false;
      }
      if !subscription.deliverInvalid && packet.invalid {
        deliver := false;
      }
      if deliver {
        packets := packets + [packet];
      }
    }

    /** The last reference goes away: the list's weak pointer expires, the guard is destroyed. */
    method Expire(port: SerialPortHandler, ghost i: nat)
      requires port.Wired() && !port.cyclicCallGuard.locked && i < |port.handlers| && port.handlers[i] == this
      requires lockGuard.lockedBySelf ==> port.serialPortLock.nbrOfLocks > 0
      modifies port.Footprint()
      ensures port.Wired() && port.View() == Destroy(old(port.View()), i)
    {
      ghost var cs := port.View().clients;
      live := false;
      ViewsChanged(port.handlers, cs, i, cs[i].(live := false));
      lockGuard.Destruct(port);
    }
  }

  /** No two clients share a guard. */
  ghost predicate Apart(hs: seq<HdlcdServerHandler>, pool: set<object>) {
    && (forall h :: h in hs ==> h in pool && h.aliveGuard in pool && h.lockGuard in pool)
    && forall i, j :: 0 <= i < j < |hs| ==>
         hs[i] != hs[j] && hs[i].aliveGuard != hs[j].aliveGuard && hs[i].lockGuard != hs[j].lockGuard
  }

  ghost function Views(hs: seq<HdlcdServerHandler>): (cs: seq<Client>)
    reads hs, set h | h in hs :: h.aliveGuard, set h | h in hs :: h.lockGuard
    ensures |cs| == |hs| && forall i :: 0 <= i < |hs| ==> cs[i] == hs[i].View()
  {
    if hs == [] then [] else [hs[0].View()] + Views(hs[1..])
  }

  lemma ViewsChanged(hs: seq<HdlcdServerHandler>, cs: seq<Client>, i: nat, c: Client)
    requires |cs| == |hs| && i < |hs| && hs[i].View() == c
    requires forall j :: 0 <= j < |hs| && j != i ==> hs[j].View() == cs[j]
    ensures Views(hs) == cs[i := c]
  {
  }

  lemma ApartErased(hs: seq<HdlcdServerHandler>, i: nat, pool: set<object>)
    requires i < |hs| && Apart(hs, pool)
    ensures Apart(hs[..i] + hs[i + 1..], pool)
  {
  }

  lemma ApartMore(hs: seq<HdlcdServerHandler>, h: HdlcdServerHandler, pool: set<object>)
    requires Apart(hs, pool) && pool !! {h, h.aliveGuard, h.lockGuard}
    ensures Apart(hs + [h], pool + {h, h.aliveGuard, h.lockGuard})
  {
  }

  lemma {:induction false} ViewsErased(hs: seq<HdlcdServerHandler>, i: nat)
    requires i < |hs|
    ensures Views(hs[..i] + hs[i + 1..]) == Views(hs)[..i] + Views(hs)[i + 1..]
  {
  }

  lemma ViewsMore(hs: seq<HdlcdServerHandler>, h: HdlcdServerHandler)
    ensures Views(hs + [h]) == Views(hs) + [h.View()]
  {
  }

  /** The entries that have not expired. */
  function Living(cs: seq<Client>): seq<Client> {
    if cs == [] then [] else (if cs[0].live then [cs[0]] else []) + Living(cs[1..])
  }

  lemma {:induction false} LivingAll(cs: seq<Client>)
    requires AllLive(cs)
    ensures Living(cs) == cs
  {
    if cs != [] {
      LivingAll(cs[1..]);
    }
  }

  lemma {:induction false} LivingErased(cs: seq<Client>, i: nat)
    requires i < |cs| && !cs[i].live
    ensures Living(cs[..i] + cs[i + 1..]) == Living(cs)
  {
    if i == 0 {
      assert cs[..i] + cs[i + 1..] == cs[1..];
    } else {
      LivingErased(cs[1..], i - 1);
      assert (cs[..i] + cs[i + 1..])[0] == cs[0];
      assert (cs[..i] + cs[i + 1..])[1..] == cs[1..][..i - 1] + cs[1..][i..];
    }
  }

  lemma EntriesOneMore(cs: seq<Client>, i: nat)
    requires i < |cs|
    ensures var t := cs[i].subscription.bufferType;
      EntryCounts(cs[..i + 1]) == EntryCounts(cs[..i])[t := EntryCounts(cs[..i])[t] + 1]
  {
    assert cs[..i + 1] == cs[..i] + [cs[i]];
    forall u: BufferType
      ensures Entries(cs[..i + 1], u) == Entries(cs[..i], u) + Entries([cs[i]], u)
    {
      EntriesAppend(cs[..i], [cs[i]], u);
    }
    assert forall u: BufferType :: Entries([cs[i]], u) == if cs[i].subscription.bufferType == u then 1 else 0;
  }

  lemma OneMoreCounted(cs: seq<Client>, i: nat, t: BufferType, before: seq<nat>, after: seq<nat>)
    requires i < |cs| && t == cs[i].subscription.bufferType && before == EntryCounts(cs[..i])
    requires after == before[t := before[t] + 1]
    ensures after == EntryCounts(cs[..i + 1])
  {
    EntriesOneMore(cs, i);
  }

  /** One step of a walk, and where it goes on. */
  function WalkedOnce(p: Port, visit: Visit, i: nat, cyclic: bool): (r: (Port, nat))
    requires i < |p.clients|
    ensures r.1 <= |r.0.clients|
  {
    if p.clients[i].live then (Visited(p, visit, i), i + 1)
    else if cyclic then (p, i + 1)
    else (Erased(p, i), i)
  }

  lemma WalkedOn(p: Port, visit: Visit, i: nat, cyclic: bool)
    requires i < |p.clients|
    ensures var (q, next) := WalkedOnce(p, visit, i, cyclic);
      Walked(p, visit, i, cyclic) == Walked(q, visit, next, cyclic)
  {
  }

  lemma WalkedEnd(p: Port, visit: Visit, cyclic: bool)
    ensures Walked(p, visit, |p.clients|, cyclic) == p
  {
  }

  /** Shared by all walks: set while a client is visited. */
  class CallGuard {
    var locked: bool

    constructor ()
      ensures !locked
    {
      locked := false;
    }
  }

  class SerialPortHandler {
    var wasOpened: bool
    var started: bool
    var alive: bool
    const serialPortLock: SerialPortLock
    const bufferTypeSubscribers: array<nat>
    var handlers: seq<HdlcdServerHandler>
    const cyclicCallGuard: CallGuard
    ghost var pool: set<object>   // every client ever added, and its guards

    ghost predicate Wired()
      reads `handlers, `pool
    {
      && bufferTypeSubscribers.Length == BUFFER_TYPES
      && this !in pool && serialPortLock !in pool && bufferTypeSubscribers !in pool
      && cyclicCallGuard !in pool
      && Apart(handlers, pool)
    }

    ghost function Footprint(): set<object>
      reads `pool
    {
      pool + {this, serialPortLock, bufferTypeSubscribers, cyclicCallGuard}
    }

    ghost function View(): Port
      requires Wired()
      reads `wasOpened, `started, `alive, `handlers, `pool, serialPortLock, bufferTypeSubscribers, pool
    {
      Port(wasOpened, started, alive, serialPortLock.nbrOfLocks, Views(handlers), bufferTypeSubscribers[..])
    }

    constructor ()
      ensures Wired() && View() == NEW_PORT && !cyclicCallGuard.locked && fresh(Footprint())
    {
      wasOpened, started, alive := false, false, false;
      serialPortLock := new SerialPortLock();
      bufferTypeSubscribers := new nat[4](_ => 0);
      handlers := [];
      cyclicCallGuard := new CallGuard();
      pool := {};
    }

    // ---------- Walking the list of clients ----------

    /** The walks that follow from the answer of client k. */
    method RunAnswer(visit: Visit, k: nat)
      requires Wired() && cyclicCallGuard.locked && visit.QueryForPayload? && k < |visit.answers|
      modifies Footprint()
      ensures Wired() && cyclicCallGuard.locked && pool == old(pool) && handlers == old(handlers)
      ensures View() == Answered(old(View()), visit, k, 0)
      decreases visit, 0
    {
      ghost var p := View();
      var j := 0;
      while j < |visit.answers[k].walks|
        invariant j <= |visit.answers[k].walks|
        invariant Wired() && cyclicCallGuard.locked && pool == old(pool) && handlers == old(handlers)
        invariant Answered(View(), visit, k, j) == Answered(p, visit, k, 0)
      {
        ForEachHdlcdServerHandler(visit.answers[k].walks[j]);
        j := j + 1;
      }
    }

    method UpdateClient(i: nat)
      requires Wired() && i < |handlers|
      modifies handlers[i], handlers[i].aliveGuard, handlers[i].lockGuard
      ensures var p := old(View()); View() == p.(clients := p.clients[i := Updated(p.clients[i], p.alive, p.locks)])
    {
      ghost var cs := Views(handlers);
      handlers[i].UpdateSerialPortState(alive, serialPortLock.GetLockHolders());
      ViewsChanged(handlers, cs, i, Updated(cs[i], alive, serialPortLock.nbrOfLocks));
    }

    method OfferToClient(i: nat, packet: Packet)
      requires Wired() && i < |handlers|
      modifies handlers[i]
      ensures var p := old(View()); View() == p.(clients := p.clients[i := Offered(p.clients[i], packet)])
    {
      ghost var cs := Views(handlers);
      handlers[i].DeliverBufferToClient(packet);
      ViewsChanged(handlers, cs, i, Offered(cs[i], packet));
    }

    method VisitClient(i: nat, visit: Visit)
      requires Wired() && cyclicCallGuard.locked && i < |handlers|
      modifies Footprint()
      ensures Wired() && cyclicCallGuard.locked && pool == old(pool) && handlers == old(handlers)
      ensures View() == Visited(old(View()), visit, i)
      decreases visit, 1
    {
      match visit
      case UpdateState => UpdateClient(i);
      case DeliverBuffer(packet) => OfferToClient(i, packet);
      case QueryForPayload(answers) =>
        var k := handlers[i].number;
        if k < |answers| {
          RunAnswer(visit, k);
        }
    }

    /** Walks that the visit causes are marked as cyclic. */
    method GuardedVisit(i: nat, visit: Visit)
      requires Wired() && i < |handlers|
      modifies Footprint()
      ensures Wired() && cyclicCallGuard.locked == old(cyclicCallGuard.locked) && pool == old(pool) && handlers == old(handlers)
      ensures View() == Visited(old(View()), visit, i)
      decreases visit, 2
    {
      ghost var p := View();
      var guardLocked := false;
      if !cyclicCallGuard.locked {
        cyclicCallGuard.locked := true;
        guardLocked := true;
      }
      assert View() == p;
      VisitClient(i, visit);
      ghost var q := View();
      assert q == Visited(p, visit, i);
      if guardLocked {
        cyclicCallGuard.locked := false;
      }
      assert View() == q;
    }

    /** One entry of the list: visited, erased if outdated, or passed over. */
    method WalkStep(visit: Visit, cur: nat) returns (next: nat, erased: bool)
      requires Wired() && cur < |handlers|
      modifies Footprint()
      ensures Wired() && pool == old(pool) && cyclicCallGuard.locked == old(cyclicCallGuard.locked)
      ensures old(cyclicCallGuard.locked) ==> handlers == old(handlers)
      ensures |handlers| == |old(handlers)| - (if erased then 1 else 0)
      ensures next <= |handlers| && |handlers| - next < |old(handlers)| - cur
      ensures (View(), next) == WalkedOnce(old(View()), visit, cur, cyclicCallGuard.locked)
      decreases visit, 3
    {
      ghost var p := View();
      if handlers[cur].live {
        GuardedVisit(cur, visit);
        ghost var q := View();
        assert q == Visited(p, visit, cur);
        return cur + 1, false;
      } else if !cyclicCallGuard.locked {
        EraseEntry(cur);
        ghost var q := View();
        assert q == Erased(p, cur);
        return cur, true;
      } else {
        return cur + 1, false;
      }
    }

    method WalkAll(visit: Visit) returns (erased: bool)
      requires Wired()
      modifies Footprint()
      ensures Wired() && pool == old(pool) && cyclicCallGuard.locked == old(cyclicCallGuard.locked)
      ensures old(cyclicCallGuard.locked) ==> handlers == old(handlers)
      ensures erased <==> |handlers| != |old(handlers)|
      ensures View() == Walked(old(View()), visit, 0, old(cyclicCallGuard.locked))
      decreases visit, 4
    {
      ghost var cyclic := cyclicCallGuard.locked;
      ghost var target := Walked(View(), visit, 0, cyclic);
      erased := false;
      var cur: nat := 0;
      while cur < |handlers|
        invariant cur <= |handlers| <= |old(handlers)|
        invariant Wired() && pool == old(pool) && cyclicCallGuard.locked == cyclic
        invariant cyclic ==> handlers == old(handlers)
        invariant erased <==> |handlers| < |old(handlers)|
        invariant Walked(View(), visit, cur, cyclic) == target
        decreases |handlers| - cur
      {
        WalkedOn(View(), visit, cur, cyclic);
        var erasedNow;
        cur, erasedNow := WalkStep(visit, cur);
        erased := erased || erasedNow;
      }
      WalkedEnd(View(), visit, cyclic);
    }

    method ForEachHdlcdServerHandler(visit: Visit)
      requires Wired()
      modifies Footprint()
      ensures Wired() && pool == old(pool) && cyclicCallGuard.locked == old(cyclicCallGuard.locked)
      ensures old(cyclicCallGuard.locked) ==> handlers == old(handlers) && View() == Walked(old(View()), visit, 0, true)
      ensures !old(cyclicCallGuard.locked) ==> View() == ForEach(old(View()), visit)
      decreases visit, 5
    {
      ghost var p := View();
      var rebuildSubscriptions := WalkAll(visit);
      if rebuildSubscriptions {
        WalkedErases(p, visit, 0);
        LivingAll(View().clients);
        RebuildSubscriptions();
      }
    }

    method EraseEntry(i: nat)
      requires Wired() && i < |handlers|
      modifies `handlers
      ensures Wired() && |handlers| == |old(handlers)| - 1
      ensures View() == Erased(old(View()), i)
    {
      ApartErased(handlers, i, pool);
      ViewsErased(handlers, i);
      handlers := handlers[..i] + handlers[i + 1..];
    }

    /** Counts from scratch; a walk that erased entries starts over, with fewer of them. */
    method RebuildSubscriptions()
      requires Wired() && !cyclicCallGuard.locked
      modifies `handlers, bufferTypeSubscribers
      ensures Wired()
      ensures var cs := Living(old(View()).clients);
        View() == old(View()).(clients := cs, subscribers := EntryCounts(cs))
      decreases |handlers|
    {
      ClearSubscribers();
      var rebuildSubscriptions := CountLiving();
      LivingAll(Views(handlers));
      if rebuildSubscriptions {
        RebuildSubscriptions();
      }
    }

    /** The first n entries are alive and counted, nothing else is counted. */
    ghost predicate CountedUpTo(n: nat)
      requires Wired()
      reads this, pool, bufferTypeSubscribers
    {
      && n <= |handlers| && LiveUpTo(Views(handlers), n)
      && bufferTypeSubscribers[..] == EntryCounts(Views(handlers)[..n])
    }

    method CountLiving() returns (rebuildSubscriptions: bool)
      requires Wired() && bufferTypeSubscribers[..] == EntryCounts([])
      modifies `handlers, bufferTypeSubscribers
      ensures Wired() && |handlers| <= |old(handlers)|
      ensures Views(handlers) == Living(old(Views(handlers))) && AllLive(Views(handlers))
      ensures bufferTypeSubscribers[..] == EntryCounts(Views(handlers))
      ensures rebuildSubscriptions <==> |handlers| < |old(handlers)|
    {
      ghost var cs := Views(handlers);
      rebuildSubscriptions := false;
      var cur: nat := 0;
      while cur < |handlers|
        invariant |handlers| <= |old(handlers)|
        invariant Wired() && CountedUpTo(cur) && Living(Views(handlers)) == Living(cs)
        invariant rebuildSubscriptions <==> |handlers| < |old(handlers)|
        decreases |handlers| - cur
      {
        var erased;
        cur, erased := CountStep(cur);
        rebuildSubscriptions := rebuildSubscriptions || erased;
      }
      LivingAll(Views(handlers));
      assert Views(handlers)[..cur] == Views(handlers);
    }

    method CountStep(cur: nat) returns (next: nat, erased: bool)
      requires Wired() && CountedUpTo(cur) && cur < |handlers|
      modifies `handlers, bufferTypeSubscribers
      ensures Wired() && CountedUpTo(next) && Living(Views(handlers)) == Living(old(Views(handlers)))
      ensures |handlers| == |old(handlers)| - (if erased then 1 else 0)
      ensures |handlers| - next < |old(handlers)| - cur
    {
      if handlers[cur].live {
        CountLive(cur);
        return cur + 1, false;
      } else {
        EraseUncounted(cur);
        return cur, true;
      }
    }

    method CountLive(cur: nat)
      requires Wired() && CountedUpTo(cur) && cur < |handlers| && handlers[cur].live
      modifies bufferTypeSubscribers
      ensures CountedUpTo(cur + 1) && Views(handlers) == old(Views(handlers))
    {
      ghost var cs := Views(handlers);
      var t := handlers[cur].subscription.bufferType;
      assert cs[cur].subscription.bufferType == t && LiveUpTo(cs, cur + 1);
      CountSubscriber(t, cs, cur);
    }

    method EraseUncounted(cur: nat)
      requires Wired() && CountedUpTo(cur) && cur < |handlers| && !handlers[cur].live
      modifies `handlers
      ensures Wired() && CountedUpTo(cur) && Living(Views(handlers)) == Living(old(Views(handlers)))
      ensures |handlers| == |old(handlers)| - 1
    {
      ghost var cs := Views(handlers);
      EraseEntry(cur);
      ghost var ds := Views(handlers);
      assert ds == cs[..cur] + cs[cur + 1..];
      LivingErased(cs, cur);
      assert ds[..cur] == cs[..cur];
    }

    method ClearSubscribers()
      requires Wired()
      modifies bufferTypeSubscribers
      ensures bufferTypeSubscribers[..] == EntryCounts([])
    {
      forall t | 0 <= t < bufferTypeSubscribers.Length {
        bufferTypeSubscribers[t] := 0;
      }
    }

    method CountSubscriber(t: BufferType, ghost cs: seq<Client>, ghost i: nat)
      requires Wired() && i < |cs| && cs[i].subscription.bufferType == t
      requires bufferTypeSubscribers[..] == EntryCounts(cs[..i])
      modifies bufferTypeSubscribers
      ensures bufferTypeSubscribers[..] == EntryCounts(cs[..i + 1]) && Views(handlers) == old(Views(handlers))
    {
      ghost var before := bufferTypeSubscribers[..];
      CountNew(t);
      OneMoreCounted(cs, i, t, before, bufferTypeSubscribers[..]);
    }

    method CountNew(t: BufferType)
      requires Wired()
      modifies bufferTypeSubscribers
      ensures bufferTypeSubscribers[..] == old(bufferTypeSubscribers[..])[t := old(bufferTypeSubscribers[t]) + 1]
      ensures Views(handlers) == old(Views(handlers))
    {
      bufferTypeSubscribers[t] := bufferTypeSubscribers[t] + 1;
    }

    // ---------- Operations ----------

    method PropagateSerialPortState()
      requires Wired() && !cyclicCallGuard.locked
      modifies Footprint()
      ensures Wired() && !cyclicCallGuard.locked && pool == old(pool)
      ensures View() == Propagate(old(View()))
    {
      ForEachHdlcdServerHandler(UpdateState);
    }

    predicate RequiresBufferType(t: BufferType)
      requires Wired()
      reads this, bufferTypeSubscribers
    {
      bufferTypeSubscribers[t] != 0
    }

    method DeliverBufferToClients(packet: Packet)
      requires Wired() && !cyclicCallGuard.locked
      modifies Footprint()
      ensures Wired() && !cyclicCallGuard.locked && pool == old(pool)
      ensures View() == ForEach(old(View()), DeliverBuffer(packet))
    {
      ForEachHdlcdServerHandler(DeliverBuffer(packet));
    }

    /** What the protocol entity does with a frame for the clients, UI payload apart. */
    method OfferBufferToClients(packet: Packet)
      requires Wired() && !cyclicCallGuard.locked
      modifies Footprint()
      ensures Wired() && !cyclicCallGuard.locked && pool == old(pool)
      ensures View() == Offer(old(View()), packet)
    {
      if RequiresBufferType(packet.bufferType) {
        DeliverBufferToClients(packet);
      }
    }

    method StopProtocol()
      requires Wired() && !cyclicCallGuard.locked
      modifies Footprint()
      ensures Wired() && !cyclicCallGuard.locked && pool == old(pool)
      ensures View() == Ports.StopProtocol(old(View()))
    {
      if started {
        started, alive := false, false;
        PropagateSerialPortState();
      }
    }

    method OpenSerialPort()
      requires Wired() && !cyclicCallGuard.locked
      modifies Footprint()
      ensures Wired() && !cyclicCallGuard.locked && pool == old(pool)
      ensures View() == Open(old(View()))
    {
      ghost var p := View();
      wasOpened, started, alive := true, true, false;
      assert View() == p.(wasOpened := true, started := true, alive := false);
      PropagateSerialPortState();
    }

    method SuspendSerialPort()
      requires Wired() && !cyclicCallGuard.locked
      modifies Footprint()
      ensures Wired() && !cyclicCallGuard.locked && pool == old(pool)
      ensures View() == Suspend(old(View()))
    {
      var first := TakeLock();
      ghost var q := View();
      if first {
        StopProtocol();
      }
      assert View() == if q.locks == 1 then Ports.StopProtocol(q) else q;
      PropagateSerialPortState();
    }

    method TakeLock() returns (first: bool)
      requires Wired()
      modifies serialPortLock
      ensures View() == old(View()).(locks := old(View()).locks + 1)
      ensures first == (View().locks == 1)
    {
      first := serialPortLock.SuspendSerialPort();
    }

    method ResumeSerialPort()
      requires Wired() && !cyclicCallGuard.locked && serialPortLock.nbrOfLocks > 0
      modifies Footprint()
      ensures Wired() && !cyclicCallGuard.locked && pool == old(pool)
      ensures View() == Resume(old(View()))
    {
      var last := serialPortLock.ResumeSerialPort();
      if last {
        OpenSerialPort();
      } else {
        PropagateSerialPortState();
      }
    }

    method AddHdlcdServerHandler(h: HdlcdServerHandler)
      requires Wired() && !cyclicCallGuard.locked
      requires {h, h.aliveGuard, h.lockGuard} !! Footprint()
      modifies Footprint(), h, h.aliveGuard, h.lockGuard
      ensures Wired() && !cyclicCallGuard.locked && pool == old(pool) + {h, h.aliveGuard, h.lockGuard}
      ensures View() == Add(old(View()), old(h.View()))
    {
      ghost var p, c := View(), h.View();
      Enlist(h);
      ghost var q := View();
      assert Add(p, c) == if q.started then Propagate(q) else q;
      if started {
        PropagateSerialPortState();
      }
    }

    method Enlist(h: HdlcdServerHandler)
      requires Wired() && {h, h.aliveGuard, h.lockGuard} !! Footprint()
      modifies `handlers, `pool, bufferTypeSubscribers
      ensures Wired() && pool == old(pool) + {h, h.aliveGuard, h.lockGuard}
      ensures var p, c := old(View()), old(h.View()); var t := c.subscription.bufferType;
        View() == p.(clients := p.clients + [c], subscribers := p.subscribers[t := p.subscribers[t] + 1])
    {
      CountNew(h.subscription.bufferType);
      PushBack(h);
    }

    method PushBack(h: HdlcdServerHandler)
      requires Wired() && {h, h.aliveGuard, h.lockGuard} !! Footprint()
      modifies `handlers, `pool
      ensures Wired() && pool == old(pool) + {h, h.aliveGuard, h.lockGuard}
      ensures View() == old(View()).(clients := old(View()).clients + [h.View()])
    {
      ApartMore(handlers, h, pool);
      ViewsMore(handlers, h);
      handlers := handlers + [h];
      pool := pool + {h, h.aliveGuard, h.lockGuard};
    }

    method Register(number: nat, subscription: Subscription) returns (h: HdlcdServerHandler)
      requires Wired() && !cyclicCallGuard.locked
      modifies Footprint()
      ensures Wired() && !cyclicCallGuard.locked && fresh(pool - old(pool))
      ensures View() == Add(old(View()), NewClient(number, subscription))
    {
      ghost var p := View();
      h := new HdlcdServerHandler(number, subscription);
      assert View() == p;
      AddHdlcdServerHandler(h);
    }

    method OpenFirst()
      requires Wired() && !cyclicCallGuard.locked
      modifies Footprint()
      ensures Wired() && !cyclicCallGuard.locked && pool == old(pool)
      ensures var p := old(View()); View() == if p.wasOpened then p else Open(p)
    {
      if !wasOpened {
        OpenSerialPort();
      }
    }

    /** A client's session begins; the first one makes the port open. */
    method StartSession(number: nat, subscription: Subscription) returns (h: HdlcdServerHandler)
      requires Wired() && !cyclicCallGuard.locked
      modifies Footprint()
      ensures Wired() && !cyclicCallGuard.locked && fresh(pool - old(pool))
      ensures View() == Join(old(View()), NewClient(number, subscription))
    {
      ghost var p := View();
      h := Register(number, subscription);
      ghost var q := View();
      assert q == Add(p, NewClient(number, subscription));
      OpenFirst();
      assert View() == if q.wasOpened then q else Open(q);
      PropagateSerialPortState();
    }
  }
}
