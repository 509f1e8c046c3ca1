/** Who gets which packet: told from the subscriptions and the events of a run alone. */
module PortDeliveries {
  import opened Ports
  import opened PortTheorems

  // ---------- What a client asked for ----------

  /** The right kind of packet, in a direction and of a validity that was asked for. */
  predicate AskedFor(s: Subscription, p: Packet) {
    && p.bufferType == s.bufferType
    && ((p.wasSent && s.deliverSent) || (!p.wasSent && s.deliverRcvd))
    && (!p.invalid || s.deliverInvalid)
  }

  function Selected(s: Subscription, ps: seq<Packet>): seq<Packet> {
    if ps == [] then []
    else (if AskedFor(s, ps[0]) then [ps[0]] else []) + Selected(s, ps[1..])
  }

  lemma {:induction false} SelectedAppend(s: Subscription, a: seq<Packet>, b: seq<Packet>)
    ensures Selected(s, a + b) == Selected(s, a) + Selected(s, b)
    decreases |a|
  {
    if a == [] {
      assert a + b == b;
    } else {
      assert (a + b)[0] == a[0] && (a + b)[1..] == a[1..] + b;
      SelectedAppend(s, a[1..], b);
    }
  }

  // ---------- The packets of the living clients ----------

  datatype Inbox = Inbox(number: nat, subscription: Subscription, packets: seq<Packet>)

  function InboxOf(c: Client): Inbox {
    Inbox(c.number, c.subscription, c.packets)
  }

  function Inboxes(cs: seq<Client>): seq<Inbox> {
    if cs == [] then [] else (if cs[0].live then [InboxOf(cs[0])] else []) + Inboxes(cs[1..])
  }

  lemma {:induction false} InboxesAppend(a: seq<Client>, b: seq<Client>)
    ensures Inboxes(a + b) == Inboxes(a) + Inboxes(b)
    decreases |a|
  {
    if a == [] {
      assert a + b == b;
    } else {
      assert (a + b)[0] == a[0] && (a + b)[1..] == a[1..] + b;
      InboxesAppend(a[1..], b);
    }
  }

  lemma InboxesSplit(cs: seq<Client>, i: nat)
    requires i <= |cs|
    ensures Inboxes(cs) == Inboxes(cs[..i]) + Inboxes(cs[i..])
  {
    assert cs == cs[..i] + cs[i..];
    InboxesAppend(cs[..i], cs[i..]);
  }

  lemma InboxesAround(cs: seq<Client>, i: nat)
    requires i < |cs|
    ensures Inboxes(cs[i..]) == Inboxes([cs[i]]) + Inboxes(cs[i + 1..])
    ensures Inboxes(cs[..i + 1]) == Inboxes(cs[..i]) + Inboxes([cs[i]])
  {
    assert cs[i..] == [cs[i]] + cs[i + 1..] && cs[..i + 1] == cs[..i] + [cs[i]];
    InboxesAppend([cs[i]], cs[i + 1..]);
    InboxesAppend(cs[..i], [cs[i]]);
  }

  /** All get the packets they asked for. */
  function Given(boxes: seq<Inbox>, ps: seq<Packet>): seq<Inbox> {
    if boxes == [] then []
    else
      var b := boxes[0];
      [b.(packets := b.packets + Selected(b.subscription, ps))] + Given(boxes[1..], ps)
  }

  lemma {:induction false} GivenAppend(a: seq<Inbox>, b: seq<Inbox>, ps: seq<Packet>)
    ensures Given(a + b, ps) == Given(a, ps) + Given(b, ps)
    decreases |a|
  {
    if a == [] {
      assert a + b == b;
    } else {
      assert (a + b)[0] == a[0] && (a + b)[1..] == a[1..] + b;
      GivenAppend(a[1..], b, ps);
    }
  }

  lemma {:induction false} GivenTwice(boxes: seq<Inbox>, x: seq<Packet>, y: seq<Packet>)
    ensures Given(Given(boxes, x), y) == Given(boxes, x + y)
    decreases |boxes|
  {
    if boxes != [] {
      var b := boxes[0];
      SelectedAppend(b.subscription, x, y);
      assert b.packets + (Selected(b.subscription, x) + Selected(b.subscription, y))
          == b.packets + Selected(b.subscription, x) + Selected(b.subscription, y);
      GivenTwice(boxes[1..], x, y);
    }
  }

  lemma {:induction false} GivenNothing(boxes: seq<Inbox>)
    ensures Given(boxes, []) == boxes
  {
    if boxes != [] {
      assert boxes[0].packets + [] == boxes[0].packets;
      GivenNothing(boxes[1..]);
    }
  }

  function Numbers(boxes: seq<Inbox>): seq<nat> {
    if boxes == [] then [] else [boxes[0].number] + Numbers(boxes[1..])
  }

  lemma {:induction false} GivenNumbers(boxes: seq<Inbox>, ps: seq<Packet>)
    ensures Numbers(Given(boxes, ps)) == Numbers(boxes)
  {
    if boxes != [] {
      GivenNumbers(boxes[1..], ps);
    }
  }

  lemma {:induction false} NumbersAppend(a: seq<Inbox>, b: seq<Inbox>)
    ensures Numbers(a + b) == Numbers(a) + Numbers(b)
    decreases |a|
  {
    if a == [] {
      assert a + b == b;
    } else {
      assert (a + b)[0] == a[0] && (a + b)[1..] == a[1..] + b;
      NumbersAppend(a[1..], b);
    }
  }

  lemma OneBox(c: Client)
    ensures Inboxes([c]) == if c.live then [InboxOf(c)] else []
  {
    assert [c][1..] == [];
  }

  lemma {:induction false} SameNumbers(cs: seq<Client>, ds: seq<Client>)
    requires |cs| == |ds| && forall i :: 0 <= i < |cs| ==> SameGuards(cs[i], ds[i])
    ensures Numbers(Inboxes(cs)) == Numbers(Inboxes(ds))
  {
    if cs != [] {
      assert SameGuards(cs[0], ds[0]);
      assert forall i :: 0 <= i < |cs[1..]| ==> cs[1..][i] == cs[i + 1] && ds[1..][i] == ds[i + 1];
      SameNumbers(cs[1..], ds[1..]);
      OneBox(cs[0]);
      OneBox(ds[0]);
      NumbersAppend(Inboxes([cs[0]]), Inboxes(cs[1..]));
      NumbersAppend(Inboxes([ds[0]]), Inboxes(ds[1..]));
    }
  }

  // ---------- What a walk brings ----------

  /** The packets that reach every living client in a walk over clients with these
      numbers: one, or those of the walks that their answers cause. */
  function Brought(ns: seq<nat>, v: Visit): seq<Packet>
    decreases v, 2, 0
  {
    match v
    case UpdateState => []
    case DeliverBuffer(packet) => [packet]
    case QueryForPayload(_) => BroughtBy(ns, v, ns)
  }

  function BroughtBy(ns: seq<nat>, v: Visit, todo: seq<nat>): seq<Packet>
    requires v.QueryForPayload?
    decreases v, 1, |todo|
  {
    if todo == [] then []
    else
      (if todo[0] < |v.answers| then BroughtIn(ns, v, todo[0], 0) else []) + BroughtBy(ns, v, todo[1..])
  }

  function BroughtIn(ns: seq<nat>, v: Visit, k: nat, j: nat): seq<Packet>
    requires v.QueryForPayload? && k < |v.answers| && j <= |v.answers[k].walks|
    decreases v, 0, |v.answers[k].walks| - j
  {
    if j == |v.answers[k].walks| then []
    else Brought(ns, v.answers[k].walks[j]) + BroughtIn(ns, v, k, j + 1)
  }

  /** What a walk from some position on makes of the boxes before and from there. */
  function Walks(before: seq<Inbox>, rest: seq<Inbox>, v: Visit): seq<Inbox> {
    match v
    case UpdateState => before + rest
    case DeliverBuffer(packet) => before + Given(rest, [packet])
    case QueryForPayload(_) => Given(before + rest, BroughtBy(Numbers(before + rest), v, Numbers(rest)))
  }

  predicate Brings(p: Port, v: Visit, i: nat, cyclic: bool)
    requires i <= |p.clients|
  {
    Inboxes(Walked(p, v, i, cyclic).clients) == Walks(Inboxes(p.clients[..i]), Inboxes(p.clients[i..]), v)
  }

  lemma WalksAll(boxes: seq<Inbox>, v: Visit)
    ensures Walks([], boxes, v) == Given(boxes, Brought(Numbers(boxes), v))
  {
    GivenNothing(boxes);
    assert [] + boxes == boxes;
  }

  lemma BringsEnd(p: Port, v: Visit, cyclic: bool)
    ensures Brings(p, v, |p.clients|, cyclic)
  {
    assert p.clients[..|p.clients|] == p.clients && p.clients[|p.clients|..] == [];
    var boxes := Inboxes(p.clients);
    assert boxes + [] == boxes;
    GivenNothing(boxes);
  }

  lemma WantsIffAsked(s: Subscription, p: Packet)
    ensures Wants(s, p) <==> AskedFor(s, p)
  {
  }

  lemma OfferedBox(c: Client, packet: Packet)
    requires c.live
    ensures Inboxes([Offered(c, packet)]) == Given(Inboxes([c]), [packet])
  {
    WantsIffAsked(c.subscription, packet);
    OneBox(c);
    OneBox(Offered(c, packet));
    assert c.packets + [] == c.packets && [packet][1..] == [] && [InboxOf(c)][1..] == [];
    assert Selected(c.subscription, [packet]) == if AskedFor(c.subscription, packet) then [packet] else [];
  }

  lemma UpdatedBox(c: Client, alive: bool, locks: nat)
    ensures Inboxes([Updated(c, alive, locks)]) == Inboxes([c])
  {
    OneBox(c);
    OneBox(Updated(c, alive, locks));
  }

  /** The client at a position is replaced; the others stay. */
  lemma ReplacedBoxes(cs: seq<Client>, i: nat, d: Client)
    requires i < |cs|
    ensures Inboxes(cs[i := d][..i + 1]) == Inboxes(cs[..i]) + Inboxes([d])
    ensures Inboxes(cs[i := d][i + 1..]) == Inboxes(cs[i + 1..])
  {
    assert cs[i := d][..i] == cs[..i] && cs[i := d][i + 1..] == cs[i + 1..];
    InboxesAround(cs[i := d], i);
  }

  lemma UpdateBrings(p: Port, i: nat, cyclic: bool)
    requires i < |p.clients| && p.clients[i].live && Brings(Visited(p, UpdateState, i), UpdateState, i + 1, cyclic)
    ensures Brings(p, UpdateState, i, cyclic)
  {
    var c := p.clients[i];
    var d := Updated(c, p.alive, p.locks);
    ReplacedBoxes(p.clients, i, d);
    UpdatedBox(c, p.alive, p.locks);
    InboxesAround(p.clients, i);
    var a, b, r := Inboxes(p.clients[..i]), Inboxes([c]), Inboxes(p.clients[i + 1..]);
    assert a + b + r == a + (b + r);
  }

  lemma GivenBehind(a: seq<Inbox>, b: seq<Inbox>, c: seq<Inbox>, ps: seq<Packet>)
    ensures a + Given(b, ps) + Given(c, ps) == a + Given(b + c, ps)
  {
    GivenAppend(b, c, ps);
  }

  lemma DeliveryBrings(p: Port, packet: Packet, i: nat, cyclic: bool)
    requires i < |p.clients| && p.clients[i].live
    requires Brings(Visited(p, DeliverBuffer(packet), i), DeliverBuffer(packet), i + 1, cyclic)
    ensures Brings(p, DeliverBuffer(packet), i, cyclic)
  {
    var c := p.clients[i];
    ReplacedBoxes(p.clients, i, Offered(c, packet));
    OfferedBox(c, packet);
    InboxesAround(p.clients, i);
    GivenBehind(Inboxes(p.clients[..i]), Inboxes([c]), Inboxes(p.clients[i + 1..]), [packet]);
  }

  /** All that the answer of client k still brings. */
  predicate AnswerBrings(p: Port, v: Visit, k: nat, j: nat)
    requires v.QueryForPayload? && k < |v.answers| && j <= |v.answers[k].walks|
  {
    Inboxes(Answered(p, v, k, j).clients) == Given(Inboxes(p.clients), BroughtIn(Numbers(Inboxes(p.clients)), v, k, j))
  }

  lemma {:induction false} AnswersBring(p: Port, v: Visit, k: nat, j: nat)
    requires v.QueryForPayload? && k < |v.answers| && j <= |v.answers[k].walks|
    ensures AnswerBrings(p, v, k, j)
    decreases v, 0, |v.answers[k].walks| - j
  {
    var boxes := Inboxes(p.clients);
    if j == |v.answers[k].walks| {
      GivenNothing(boxes);
    } else {
      var w := v.answers[k].walks[j];
      var q := Walked(p, w, 0, true);
      WalkBrings(p, w, 0, true);
      FromTheStart(p, w, true);
      AnswersBring(q, v, k, j + 1);
      GivenNumbers(boxes, Brought(Numbers(boxes), w));
      GivenTwice(boxes, Brought(Numbers(boxes), w), BroughtIn(Numbers(boxes), v, k, j + 1));
    }
  }

  /** A whole walk. */
  lemma FromTheStart(p: Port, v: Visit, cyclic: bool)
    requires Brings(p, v, 0, cyclic)
    ensures var boxes := Inboxes(p.clients);
      Inboxes(Walked(p, v, 0, cyclic).clients) == Given(boxes, Brought(Numbers(boxes), v))
  {
    assert p.clients[..0] == [] && p.clients[0..] == p.clients;
    WalksAll(Inboxes(p.clients), v);
  }

  /** The boxes after the answer of one client, and their numbers. */
  lemma AnsweredBoxes(p: Port, v: Visit, i: nat, first: seq<Packet>)
    requires v.QueryForPayload? && i < |p.clients|
    requires Inboxes(Visited(p, v, i).clients) == Given(Inboxes(p.clients), first)
    ensures var q := Visited(p, v, i);
      && Numbers(Inboxes(q.clients)) == Numbers(Inboxes(p.clients))
      && Numbers(Inboxes(q.clients[i + 1..])) == Numbers(Inboxes(p.clients[i + 1..]))
      && Inboxes(q.clients) == Inboxes(q.clients[..i + 1]) + Inboxes(q.clients[i + 1..])
  {
    var q := Visited(p, v, i);
    GivenNumbers(Inboxes(p.clients), first);
    SameNumbers(p.clients[i + 1..], q.clients[i + 1..]);
    InboxesSplit(q.clients, i + 1);
  }

  lemma FirstOfQuery(ns: seq<nat>, v: Visit, k: nat, rest: seq<nat>)
    requires v.QueryForPayload?
    ensures BroughtBy(ns, v, [k] + rest)
         == (if k < |v.answers| then BroughtIn(ns, v, k, 0) else []) + BroughtBy(ns, v, rest)
  {
    assert ([k] + rest)[1..] == rest;
  }

  lemma NumbersFrom(cs: seq<Client>, i: nat)
    requires i < |cs| && cs[i].live
    ensures Numbers(Inboxes(cs[i..])) == [cs[i].number] + Numbers(Inboxes(cs[i + 1..]))
  {
    InboxesAround(cs, i);
    OneBox(cs[i]);
    NumbersAppend(Inboxes([cs[i]]), Inboxes(cs[i + 1..]));
  }

  /** What a query brings from some position on, the client there first. */
  lemma QueryBrings(p: Port, v: Visit, i: nat, cyclic: bool)
    requires v.QueryForPayload? && i < |p.clients| && p.clients[i].live
    requires p.clients[i].number < |v.answers| ==> AnswerBrings(p, v, p.clients[i].number, 0)
    requires Brings(Visited(p, v, i), v, i + 1, cyclic)
    ensures Brings(p, v, i, cyclic)
  {
    var k := p.clients[i].number;
    var boxes, ns := Inboxes(p.clients), Numbers(Inboxes(p.clients));
    var rest := Numbers(Inboxes(p.clients[i + 1..]));
    var first := if k < |v.answers| then BroughtIn(ns, v, k, 0) else [];
    GivenNothing(boxes);
    AnsweredBoxes(p, v, i, first);
    InboxesSplit(p.clients, i);
    NumbersFrom(p.clients, i);
    FirstOfQuery(ns, v, k, rest);
    GivenTwice(boxes, first, BroughtBy(ns, v, rest));
  }

  lemma ExpiredBrings(p: Port, v: Visit, i: nat, cyclic: bool)
    requires i < |p.clients| && !p.clients[i].live
    requires if cyclic then Brings(p, v, i + 1, cyclic) else Brings(Erased(p, i), v, i, cyclic)
    ensures Brings(p, v, i, cyclic)
  {
    InboxesAround(p.clients, i);
    OneBox(p.clients[i]);
    var a, r := Inboxes(p.clients[..i]), Inboxes(p.clients[i + 1..]);
    assert [] + r == r && a + [] == a;
    ErasedRest(p, i);
  }

  /** Every walk, however deep it nests, from every position on. */
  lemma {:induction false} WalkBrings(p: Port, v: Visit, i: nat, cyclic: bool)
    requires i <= |p.clients|
    ensures Brings(p, v, i, cyclic)
    decreases v, 2, |p.clients| - i
  {
    if i == |p.clients| {
      BringsEnd(p, v, cyclic);
    } else if !p.clients[i].live {
      if cyclic {
        WalkBrings(p, v, i + 1, cyclic);
      } else {
        WalkBrings(Erased(p, i), v, i, cyclic);
      }
      ExpiredBrings(p, v, i, cyclic);
    } else {
      WalkBrings(Visited(p, v, i), v, i + 1, cyclic);
      match v
      case UpdateState => UpdateBrings(p, i, cyclic);
      case DeliverBuffer(packet) => DeliveryBrings(p, packet, i, cyclic);
      case QueryForPayload(answers) =>
        if p.clients[i].number < |answers| {
          AnswersBring(p, v, p.clients[i].number, 0);
        }
        QueryBrings(p, v, i, cyclic);
    }
  }

  /** Every living client gets what it asked for among the packets that a walk brings. */
  lemma ForEachBrings(p: Port, v: Visit)
    ensures var boxes := Inboxes(p.clients);
      Inboxes(ForEach(p, v).clients) == Given(boxes, Brought(Numbers(boxes), v))
  {
    WalkBrings(p, v, 0, false);
    FromTheStart(p, v, false);
  }

  // ---------- Events ----------

  /** A living client, and everything that was offered since it joined. */
  datatype Member = Member(number: nat, subscription: Subscription, offered: seq<Packet>)

  /** What a member must have been sent. */
  function Due(ms: seq<Member>): seq<Inbox> {
    if ms == [] then []
    else [Inbox(ms[0].number, ms[0].subscription, Selected(ms[0].subscription, ms[0].offered))] + Due(ms[1..])
  }

  lemma {:induction false} DueAppend(a: seq<Member>, b: seq<Member>)
    ensures Due(a + b) == Due(a) + Due(b)
    decreases |a|
  {
    if a == [] {
      assert a + b == b;
    } else {
      assert (a + b)[0] == a[0] && (a + b)[1..] == a[1..] + b;
      DueAppend(a[1..], b);
    }
  }

  lemma {:induction false} DueLength(ms: seq<Member>)
    ensures |Due(ms)| == |ms|
    ensures forall i :: 0 <= i < |ms| ==>
      Due(ms)[i] == Inbox(ms[i].number, ms[i].subscription, Selected(ms[i].subscription, ms[i].offered))
  {
    if ms != [] {
      DueLength(ms[1..]);
    }
  }

  /** All are offered the packets. */
  function Offering(ms: seq<Member>, ps: seq<Packet>): seq<Member> {
    if ms == [] then [] else [ms[0].(offered := ms[0].offered + ps)] + Offering(ms[1..], ps)
  }

  lemma {:induction false} DueOffering(ms: seq<Member>, ps: seq<Packet>)
    ensures Due(Offering(ms, ps)) == Given(Due(ms), ps)
  {
    if ms != [] {
      SelectedAppend(ms[0].subscription, ms[0].offered, ps);
      DueOffering(ms[1..], ps);
      assert Due(ms)[1..] == Due(ms[1..]) && Offering(ms, ps)[1..] == Offering(ms[1..], ps);
    }
  }

  /** The numbers of the living clients, in order. */
  function MemberNumbers(ms: seq<Member>): seq<nat> {
    if ms == [] then [] else [ms[0].number] + MemberNumbers(ms[1..])
  }

  lemma {:induction false} DueNumbers(ms: seq<Member>)
    ensures Numbers(Due(ms)) == MemberNumbers(ms)
  {
    if ms != [] {
      DueNumbers(ms[1..]);
      assert Due(ms)[1..] == Due(ms[1..]);
    }
  }

  /** How many living clients there are among the first ones of the list. */
  function LivingBefore(cs: seq<Client>, i: nat): nat
    requires i <= |cs|
  {
    if i == 0 then 0 else LivingBefore(cs, i - 1) + (if cs[i - 1].live then 1 else 0)
  }

  /** Clients join and die, and what comes is offered to all. */
  function Changed(p: Port, e: PortEvent, ms: seq<Member>): seq<Member> {
    match e
    case Joins(number, subscription) => ms + [Member(number, subscription, [])]
    case Dies(i) =>
      if IsLive(p, i) && LivingBefore(p.clients, i) < |ms| then
        var k := LivingBefore(p.clients, i);
        ms[..k] + ms[k + 1..]
      else ms
    case FrameForClients(packet, _) => Offering(ms, [packet])
    case QueriesClients(answers) => Offering(ms, Brought(MemberNumbers(ms), QueryForPayload(answers)))
    case _ => ms
  }

  lemma {:induction false} LivingCounted(cs: seq<Client>, i: nat)
    requires i <= |cs|
    ensures LivingBefore(cs, i) == |Inboxes(cs[..i])|
  {
    if i > 0 {
      LivingCounted(cs, i - 1);
      InboxesAround(cs, i - 1);
      OneBox(cs[i - 1]);
    }
  }

  // ---------- What the events do to the inboxes ----------

  predicate SameBoxes(p: Port, q: Port) {
    Inboxes(q.clients) == Inboxes(p.clients)
  }

  lemma PropagateBoxes(p: Port)
    ensures SameBoxes(p, Propagate(p))
  {
    ForEachBrings(p, UpdateState);
    GivenNothing(Inboxes(p.clients));
  }

  lemma SuspendBoxes(p: Port)
    ensures SameBoxes(p, Suspend(p))
  {
    var q := p.(locks := p.locks + 1);
    PropagateBoxes(q.(started := false, alive := false));
    PropagateBoxes(if q.locks == 1 then StopProtocol(q) else q);
  }

  lemma ResumeBoxes(p: Port)
    requires p.locks > 0
    ensures SameBoxes(p, Resume(p))
  {
    var q := p.(locks := p.locks - 1);
    PropagateBoxes(q);
    PropagateBoxes(q.(wasOpened := true, started := true, alive := false));
  }

  lemma ReplacedSame(cs: seq<Client>, i: nat, d: Client)
    requires i < |cs| && d.live == cs[i].live && InboxOf(d) == InboxOf(cs[i])
    ensures Inboxes(cs[i := d]) == Inboxes(cs)
  {
    OneBox(d);
    OneBox(cs[i]);
    ReplacedBoxes(cs, i, d);
    InboxesSplit(cs[i := d], i + 1);
    InboxesSplit(cs, i + 1);
    InboxesAround(cs, i);
  }

  lemma AcquireBoxes(p: Port, i: nat)
    requires i < |p.clients|
    ensures SameBoxes(p, Acquire(p, i))
  {
    var d := p.clients[i].(lockedBySelf := true);
    ReplacedSame(p.clients, i, d);
    SuspendBoxes(p.(clients := p.clients[i := d]));
  }

  lemma ReleaseBoxes(p: Port, i: nat)
    requires i < |p.clients| && (p.clients[i].lockedBySelf ==> p.locks > 0)
    ensures SameBoxes(p, Release(p, i))
  {
    if p.clients[i].lockedBySelf {
      var d := p.clients[i].(lockedBySelf := false);
      ReplacedSame(p.clients, i, d);
      ResumeBoxes(p.(clients := p.clients[i := d]));
    }
  }

  /** An expired entry no longer has a box. */
  lemma ExpiredBoxes(cs: seq<Client>, i: nat)
    requires i < |cs| && cs[i].live
    ensures var k := LivingBefore(cs, i); var boxes := Inboxes(cs);
      k < |boxes| && Inboxes(cs[i := cs[i].(live := false)]) == boxes[..k] + boxes[k + 1..]
  {
    var d := cs[i].(live := false);
    LivingCounted(cs, i);
    InboxesSplit(cs, i);
    InboxesAround(cs, i);
    OneBox(cs[i]);
    OneBox(d);
    ReplacedBoxes(cs, i, d);
    InboxesSplit(cs[i := d], i + 1);
    var a, b, c := Inboxes(cs[..i]), Inboxes([cs[i]]), Inboxes(cs[i + 1..]);
    assert (a + (b + c))[..|a|] == a && (a + (b + c))[|a| + 1..] == c && a + [] == a;
  }

  lemma DestroyBoxes(p: Port, i: nat)
    requires IsLive(p, i) && (p.clients[i].lockedBySelf ==> p.locks > 0)
    ensures var k := LivingBefore(p.clients, i); var boxes := Inboxes(p.clients);
      k < |boxes| && Inboxes(Destroy(p, i).clients) == boxes[..k] + boxes[k + 1..]
  {
    ExpiredBoxes(p.clients, i);
    if p.clients[i].lockedBySelf {
      ResumeBoxes(p.(clients := p.clients[i := p.clients[i].(live := false)]));
    }
  }

  lemma JoinBoxes(p: Port, c: Client)
    requires |p.subscribers| == BUFFER_TYPES && c.live
    ensures Inboxes(Join(p, c).clients) == Inboxes(p.clients) + [InboxOf(c)]
  {
    var t := c.subscription.bufferType;
    var q := p.(clients := p.clients + [c], subscribers := p.subscribers[t := p.subscribers[t] + 1]);
    InboxesAppend(p.clients, [c]);
    OneBox(c);
    PropagateBoxes(q);
    var r := Add(p, c);
    PropagateBoxes(r.(wasOpened := true, started := true, alive := false));
    PropagateBoxes(if r.wasOpened then r else Open(r));
  }

  /** A frame that is not walked for, because nobody is counted, is one nobody asked for. */
  lemma {:induction false} NobodyAsked(cs: seq<Client>, packet: Packet)
    requires Entries(cs, packet.bufferType) == 0
    ensures Given(Inboxes(cs), [packet]) == Inboxes(cs)
  {
    if cs != [] {
      NobodyAsked(cs[1..], packet);
      var b := Inboxes([cs[0]]);
      OneBox(cs[0]);
      GivenAppend(b, Inboxes(cs[1..]), [packet]);
      assert [packet][1..] == [] && Selected(cs[0].subscription, [packet]) == [];
      assert cs[0].packets + [] == cs[0].packets && [InboxOf(cs[0])][1..] == [];
    }
  }

  lemma FrameBoxes(p: Port, packet: Packet, asksFirst: bool)
    requires Counted(p)
    ensures Inboxes((if asksFirst then Offer(p, packet) else ForEach(p, DeliverBuffer(packet))).clients)
         == Given(Inboxes(p.clients), [packet])
  {
    ForEachBrings(p, DeliverBuffer(packet));
    if !RequiresBufferType(p, packet.bufferType) {
      NobodyAsked(p.clients, packet);
    }
  }

  /** The list of members is right: exactly the living clients, each with what it must
      have been sent. */
  predicate Kept(p: Port, ms: seq<Member>) {
    Inboxes(p.clients) == Due(ms)
  }

  lemma EventKeeps(p: Port, e: PortEvent, ms: seq<Member>)
    requires PortTheorems.Inv(p) && Ports.Possible(p, e) && Kept(p, ms)
    ensures Kept(Next(p, e), Changed(p, e, ms))
  {
    ReactKeeps(p, e);
    DueLength(ms);
    match e
    case Joins(number, subscription) =>
      JoinBoxes(p, NewClient(number, subscription));
      DueAppend(ms, [Member(number, subscription, [])]);
      assert [Member(number, subscription, [])][1..] == [];
    case Acquires(i) => AcquireBoxes(p, i);
    case Releases(i) => ReleaseBoxes(p, i);
    case Dies(i) => DeathKeeps(p, i, ms);
    case Revived => PropagateBoxes(p.(alive := true));
    case BaudRateChanged => PropagateBoxes(p);
    case StateTimedOut(alive) =>
    case FrameForClients(packet, asksFirst) =>
      FrameBoxes(p, packet, asksFirst);
      DueOffering(ms, [packet]);
    case QueriesClients(answers) =>
      ForEachBrings(p, QueryForPayload(answers));
      DueNumbers(ms);
      DueOffering(ms, Brought(MemberNumbers(ms), QueryForPayload(answers)));
  }

  lemma DueWithout(ms: seq<Member>, k: nat)
    requires k < |ms|
    ensures |Due(ms)| == |ms| && Due(ms[..k] + ms[k + 1..]) == Due(ms)[..k] + Due(ms)[k + 1..]
  {
    assert ms == ms[..k] + ([ms[k]] + ms[k + 1..]);
    DueAppend(ms[..k], [ms[k]] + ms[k + 1..]);
    DueAppend([ms[k]], ms[k + 1..]);
    DueAppend(ms[..k], ms[k + 1..]);
    DueLength(ms);
    DueLength(ms[..k]);
    DueLength([ms[k]]);
    var a, b, c := Due(ms[..k]), Due([ms[k]]), Due(ms[k + 1..]);
    assert (a + (b + c))[..k] == a && (a + (b + c))[k + 1..] == c;
  }

  lemma DeathKeeps(p: Port, i: nat, ms: seq<Member>)
    requires PortTheorems.Inv(p) && IsLive(p, i) && Kept(p, ms)
    ensures LocksBacked(p) && Kept(Destroy(p, i), Changed(p, Dies(i), ms))
  {
    InvBacksLocks(p);
    DestroyBoxes(p, i);
    DueLength(ms);
    DueWithout(ms, LivingBefore(p.clients, i));
  }

  // ---------- Runs ----------

  ghost function MembersFrom(p: Port, es: seq<PortEvent>, ms: seq<Member>): seq<Member>
    requires PortTheorems.Inv(p) && Feasible(p, es)
    decreases |es|
  {
    if es == [] then ms else MembersFrom(Next(p, es[0]), es[1..], Changed(p, es[0], ms))
  }

  lemma {:induction false} RunKeeps(p: Port, es: seq<PortEvent>, ms: seq<Member>)
    requires PortTheorems.Inv(p) && Feasible(p, es) && Kept(p, ms)
    ensures Kept(After(p, es), MembersFrom(p, es, ms))
    decreases |es|
  {
    if es != [] {
      EventKeeps(p, es[0], ms);
      RunKeeps(Next(p, es[0]), es[1..], Changed(p, es[0], ms));
    }
  }

  /** Those who joined in a run and live, and what was offered since. */
  ghost function Members(es: seq<PortEvent>): seq<Member>
    requires Run(es)
  {
    MembersFrom(NEW_PORT, es, [])
  }

  lemma {:induction false} BoxOfLiving(cs: seq<Client>, i: nat)
    requires i < |cs| && cs[i].live
    ensures LivingBefore(cs, i) < |Inboxes(cs)| && Inboxes(cs)[LivingBefore(cs, i)] == InboxOf(cs[i])
  {
    LivingCounted(cs, i);
    InboxesSplit(cs, i);
    InboxesAround(cs, i);
    OneBox(cs[i]);
  }

  /** In every run: a living client was sent, in order, exactly those of the packets
      offered since it joined that it asked for: of its kind, in a direction it asked
      for, and valid unless it asked for invalid ones as well. */
  lemma ClientsGetWhatTheyAskedFor(es: seq<PortEvent>, i: nat)
    requires Run(es) && IsLive(Reached(es), i)
    ensures var c := Reached(es).clients[i]; var k := LivingBefore(Reached(es).clients, i); var ms := Members(es);
      && k < |ms| && ms[k].number == c.number && ms[k].subscription == c.subscription
      && c.packets == Selected(c.subscription, ms[k].offered)
  {
    NewPortInv();
    RunKeeps(NEW_PORT, es, []);
    BoxOfLiving(Reached(es).clients, i);
    DueLength(Members(es));
  }

  /** What the selection is: nothing that was not offered and asked for, and nothing else
      is left out. */
  lemma {:induction false} SelectedIs(s: Subscription, ps: seq<Packet>, p: Packet)
    ensures multiset(Selected(s, ps))[p] == if AskedFor(s, p) then multiset(ps)[p] else 0
  {
    if ps != [] {
      assert ps == [ps[0]] + ps[1..];
      SelectedIs(s, ps[1..], p);
    }
  }
}
