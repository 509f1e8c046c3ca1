/** A serial port and its clients as values: locks, status messages, subscriptions.

  A client that was destroyed stays on the list, as an expired weak pointer, until a
  walk over the list removes it.
 */
module Ports {
  import opened Fcs16

  // Raw, dissected, payload, port status.
  type BufferType = t: nat | t < BUFFER_TYPES

  const RAW: BufferType := 0
  const BUFFER_TYPES := 4

  /** A port status message. */
  datatype Status = Status(alive: bool, lockedByOthers: bool, lockedBySelf: bool)

  datatype Packet = Packet(bufferType: BufferType, payload: seq<byte>, reliable: bool, invalid: bool, wasSent: bool)

  /** What a client asked for in its session header. */
  datatype Subscription = Subscription(bufferType: BufferType, deliverSent: bool, deliverRcvd: bool, deliverInvalid: bool)

  datatype Client = Client(
    number: nat,
    live: bool,
    subscription: Subscription,
    deliverInitialState: bool,
    alive: bool,                  // the alive guard
    lockedBySelf: bool,           // the lock guard
    lockedByOthers: bool,
    lastLockedBySelf: bool,
    lastLockedByOthers: bool,
    messages: seq<Status>,        // sent to the client
    packets: seq<Packet>,         // sent to the client
    seen: seq<Status>)            // the port's state at every update, for stating properties

  function NewClient(number: nat, subscription: Subscription): Client {
    Client(number, true, subscription, true, true, false, false, false, false, [], [], [])
  }

  datatype Port = Port(
    wasOpened: bool,              // the port has been opened at least once
    started: bool,                // the protocol runs
    alive: bool,                  // the protocol considers the device alive
    locks: nat,
    clients: seq<Client>,
    subscribers: seq<nat>)        // per buffer type

  const NEW_PORT := Port(false, false, false, 0, [], [0, 0, 0, 0])

  /** What is done to every client on the list. */
  datatype Visit =
    | UpdateState
    | DeliverBuffer(packet: Packet)
    | QueryForPayload(answers: seq<Answer>)   // by number of the client

  /** What a client's answer makes the protocol do: walk the list again, perhaps often. */
  datatype Answer = Answer(walks: seq<Visit>)

  // ---------- One client ----------

  function Others(locks: nat, lockedBySelf: bool): bool {
    if lockedBySelf then locks > 1 else locks > 0
  }

  function Updated(c: Client, alive: bool, locks: nat): Client {
    var others := Others(locks, c.lockedBySelf);
    var now := Status(alive, others, c.lockedBySelf);
    var changed := c.deliverInitialState || c.alive != alive
                   || c.lastLockedBySelf != c.lockedBySelf || c.lastLockedByOthers != others;
    c.(deliverInitialState := false, alive := alive, lockedByOthers := others,
       lastLockedBySelf := c.lockedBySelf, lastLockedByOthers := others,
       messages := if changed then c.messages + [now] else c.messages,
       seen := c.seen + [now])
  }

  predicate Wants(s: Subscription, p: Packet) {
    && p.bufferType == s.bufferType
    && (if p.wasSent then s.deliverSent else s.deliverRcvd)
    && (p.invalid ==> s.deliverInvalid)
  }

  function Offered(c: Client, p: Packet): Client {
    if Wants(c.subscription, p) then c.(packets := c.packets + [p]) else c
  }

  // ---------- Walking the list ----------

  /** Everything a visit leaves alone. */
  predicate SameGuards(c: Client, d: Client) {
    d.number == c.number && d.live == c.live && d.subscription == c.subscription && d.lockedBySelf == c.lockedBySelf
  }

  predicate SamePort(p: Port, q: Port) {
    q.wasOpened == p.wasOpened && q.started == p.started && q.alive == p.alive && q.locks == p.locks
  }

  predicate SameClients(p: Port, q: Port) {
    && SamePort(p, q) && q.subscribers == p.subscribers && |q.clients| == |p.clients|
    && forall i :: 0 <= i < |p.clients| ==> SameGuards(p.clients[i], q.clients[i])
  }

  function Erased(p: Port, i: nat): Port
    requires i < |p.clients|
  {
    p.(clients := p.clients[..i] + p.clients[i + 1..])
  }

  /** The walk from position i on; only the outermost walk erases. */
  function Walked(p: Port, v: Visit, i: nat, cyclic: bool): (q: Port)
    requires i <= |p.clients|
    ensures SamePort(p, q) && q.subscribers == p.subscribers
    ensures cyclic ==> SameClients(p, q)
    decreases v, 2, |p.clients| - i
  {
    if i == |p.clients| then p
    else if p.clients[i].live then Walked(Visited(p, v, i), v, i + 1, cyclic)
    else if cyclic then Walked(p, v, i + 1, cyclic)
    else Walked(Erased(p, i), v, i, cyclic)
  }

  function Visited(p: Port, v: Visit, i: nat): (q: Port)
    requires i < |p.clients|
    ensures SameClients(p, q)
    decreases v, 1, 0
  {
    var c := p.clients[i];
    match v
    case UpdateState => p.(clients := p.clients[i := Updated(c, p.alive, p.locks)])
    case DeliverBuffer(packet) => p.(clients := p.clients[i := Offered(c, packet)])
    case QueryForPayload(answers) => if c.number < |answers| then Answered(p, v, c.number, 0) else p
  }

  /** The walks caused by the answer of client k, from the j-th on. */
  function Answered(p: Port, v: Visit, k: nat, j: nat): (q: Port)
    requires v.QueryForPayload? && k < |v.answers| && j <= |v.answers[k].walks|
    ensures SameClients(p, q)
    decreases v, 0, |v.answers[k].walks| - j
  {
    if j == |v.answers[k].walks| then p
    else Answered(Walked(p, v.answers[k].walks[j], 0, true), v, k, j + 1)
  }

  /** How many entries of the list subscribed to a type, expired ones included. */
  function Entries(cs: seq<Client>, t: BufferType): nat {
    if cs == [] then 0
    else (if cs[0].subscription.bufferType == t then 1 else 0) + Entries(cs[1..], t)
  }

  function EntryCounts(cs: seq<Client>): seq<nat> {
    seq(BUFFER_TYPES, t requires 0 <= t < BUFFER_TYPES => Entries(cs, t))
  }

  function ForEach(p: Port, v: Visit): Port {
    var q := Walked(p, v, 0, false);
    if |q.clients| == |p.clients| then q else q.(subscribers := EntryCounts(q.clients))
  }

  // ---------- Operations ----------

  function Propagate(p: Port): Port {
    ForEach(p, UpdateState)
  }

  predicate RequiresBufferType(p: Port, t: BufferType)
    requires |p.subscribers| == BUFFER_TYPES
  {
    p.subscribers[t] != 0
  }

  /** The protocol stops, and if it ran, says so. */
  function StopProtocol(p: Port): Port {
    if p.started then Propagate(p.(started := false, alive := false)) else p
  }

  function Open(p: Port): Port {
    Propagate(p.(wasOpened := true, started := true, alive := false))
  }

  function Suspend(p: Port): Port {
    var q := p.(locks := p.locks + 1);
    Propagate(if q.locks == 1 then StopProtocol(q) else q)
  }

  function Resume(p: Port): Port
    requires p.locks > 0
  {
    var q := p.(locks := p.locks - 1);
    if q.locks == 0 then Open(q) else Propagate(q)
  }

  function Acquire(p: Port, i: nat): Port
    requires i < |p.clients|
  {
    if p.clients[i].lockedBySelf then p
    else Suspend(p.(clients := p.clients[i := p.clients[i].(lockedBySelf := true)]))
  }

  function Release(p: Port, i: nat): Port
    requires i < |p.clients|
    requires p.clients[i].lockedBySelf ==> p.locks > 0
  {
    if !p.clients[i].lockedBySelf then p
    else Resume(p.(clients := p.clients[i := p.clients[i].(lockedBySelf := false)]))
  }

  /** The last reference to a client goes away; a lock it held is released. */
  function Destroy(p: Port, i: nat): Port
    requires i < |p.clients|
    requires p.clients[i].lockedBySelf ==> p.locks > 0
  {
    var q := p.(clients := p.clients[i := p.clients[i].(live := false)]);
    if p.clients[i].lockedBySelf then Resume(q) else q
  }

  function Add(p: Port, c: Client): Port
    requires |p.subscribers| == BUFFER_TYPES
  {
    var t := c.subscription.bufferType;
    var q := p.(clients := p.clients + [c], subscribers := p.subscribers[t := p.subscribers[t] + 1]);
    if q.started then Propagate(q) else q
  }

  /** A client joins; the first one makes the port open. */
  function Join(p: Port, c: Client): Port
    requires |p.subscribers| == BUFFER_TYPES
  {
    var q := Add(p, c);
    Propagate(if q.wasOpened then q else Open(q))
  }

  /** How the protocol entity passes on most frames: only if somebody subscribed. */
  function Offer(p: Port, packet: Packet): Port
    requires |p.subscribers| == BUFFER_TYPES
  {
    if RequiresBufferType(p, packet.bufferType) then ForEach(p, DeliverBuffer(packet)) else p
  }

  datatype PortEvent =
    | Joins(number: nat, subscription: Subscription)
    | Acquires(client: nat)
    | Releases(client: nat)
    | Dies(client: nat)
    | Revived                              // a valid frame while not alive
    | BaudRateChanged
    | StateTimedOut(alive: bool)           // not propagated
    | FrameForClients(packet: Packet, asksFirst: bool)   // only UI payload is not asked for
    | QueriesClients(answers: seq<Answer>)

  predicate IsLive(p: Port, i: nat) {
    i < |p.clients| && p.clients[i].live
  }

  predicate Possible(p: Port, e: PortEvent) {
    match e
    case Acquires(i) => IsLive(p, i)
    case Releases(i) => IsLive(p, i)
    case Dies(i) => IsLive(p, i)
    case Revived => p.started && !p.alive
    case BaudRateChanged => p.started && !p.alive
    case StateTimedOut(alive) => p.started && (alive ==> p.alive)
    case _ => true
  }

  predicate LocksBacked(p: Port) {
    forall i :: 0 <= i < |p.clients| && p.clients[i].live && p.clients[i].lockedBySelf ==> p.locks > 0
  }

  function React(p: Port, e: PortEvent): Port
    requires Possible(p, e) && LocksBacked(p) && |p.subscribers| == BUFFER_TYPES
  {
    match e
    case Joins(number, subscription) => Join(p, NewClient(number, subscription))
    case Acquires(i) => Acquire(p, i)
    case Releases(i) => Release(p, i)
    case Dies(i) => Destroy(p, i)
    case Revived => Propagate(p.(alive := true))
    case BaudRateChanged => Propagate(p)
    case StateTimedOut(alive) => p.(alive := alive)
    case FrameForClients(packet, asksFirst) =>
      if asksFirst then Offer(p, packet) else ForEach(p, DeliverBuffer(packet))
    case QueriesClients(answers) => ForEach(p, QueryForPayload(answers))
  }
}
