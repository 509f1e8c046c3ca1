/** The link entity fed with bytes: framing and protocol put together. */
module LinkStreams {
  import opened Fcs16
  import opened HdlcFrames
  import opened FrameGenerator
  import opened FrameParsers
  import opened Framing
  import opened Mealy
  import opened Links
  import opened LinkInvariants

  predicate Numbered(d: Delivery) {
    d.frame.sseq < 8 && d.frame.rseq < 8
  }

  type NumberedDelivery = d: Delivery | Numbered(d) witness Delivery([], EMPTY_FRAME, true)

  type Running = r: Ran | Inv(r.link) witness Ran(NEW_LINK, [])

  /** What the parser hands over can be interpreted. */
  function Parsed(p: ParserState, bytes: seq<byte>): (ds: seq<NumberedDelivery>)
    ensures ds == Parse(p, bytes).outputs
  {
    DeliveriesSound(p, bytes);
    var ds := Parse(p, bytes).outputs;
    assert forall i :: 0 <= i < |ds| ==> Sound(ds[i]);
    ds
  }

  function ReceiveOne(r: Running, d: NumberedDelivery): Running {
    StepKeeps(r.link, LinkEvent.Deliver(d.frame, d.invalid), r.script);
    Receive(r.link, d.frame, d.invalid, r.script)
  }

  /** Frames handed over one after the other by the parser. */
  function ReceiveAll(r: Running, ds: seq<NumberedDelivery>): Running {
    Thread(ReceiveOne, r, ds)
  }

  /** Bytes from the line, to a parser in state p. */
  function ReceiveBytes(r: Running, p: ParserState, bytes: seq<byte>): Running {
    ReceiveAll(r, Parsed(p, bytes))
  }

  /** How the line cuts its bytes into pieces makes no difference to the entity. */
  lemma ReceiveBytesAppend(r: Running, p: ParserState, a: seq<byte>, b: seq<byte>)
    ensures ReceiveBytes(r, p, a + b) == ReceiveBytes(ReceiveBytes(r, p, a), Parse(p, a).state, b)
  {
    ParseAppend(p, a, b);
    ThreadAppend(ReceiveOne, r, Parsed(p, a), Parsed(Parse(p, a).state, b));
  }

  // ---------- A peer that uses the same generator ----------

  function ReceiveFrame(r: Running, f: Printable): Running {
    StepKeeps(r.link, LinkEvent.Deliver(OnWire(f), false), r.script);
    Receive(r.link, OnWire(f), false, r.script)
  }

  /** The entity's reaction to a list of frames, had there been no line at all. */
  function ReceiveFrames(r: Running, fs: seq<Printable>): Running {
    Thread(ReceiveFrame, r, fs)
  }

  lemma ArrivalNumbered(f: Printable)
    ensures Numbered(Arrival(f)) && Arrival(f).frame == OnWire(f) && !Arrival(f).invalid
  {
  }

  function ArrivalsNumbered(fs: seq<Printable>): (ds: seq<NumberedDelivery>)
    ensures ds == Arrivals(fs)
  {
    if fs == [] then []
    else
      ArrivalNumbered(fs[0]);
      [Arrival(fs[0])] + ArrivalsNumbered(fs[1..])
  }

  lemma ReceiveArrival(r: Running, f: Printable)
    ensures Numbered(Arrival(f)) && ReceiveOne(r, Arrival(f)) == ReceiveFrame(r, f)
  {
    ArrivalNumbered(f);
  }

  lemma {:induction false} ReceiveArrivals(r: Running, fs: seq<Printable>)
    ensures ReceiveAll(r, ArrivalsNumbered(fs)) == ReceiveFrames(r, fs)
    decreases |fs|
  {
    if fs != [] {
      ReceiveArrival(r, fs[0]);
      ReceiveArrivals(ReceiveFrame(r, fs[0]), fs[1..]);
      assert ArrivalsNumbered(fs)[1..] == ArrivalsNumbered(fs[1..]);
    }
  }

  /** Serialising, stuffing, parsing and unstuffing together are invisible to the
      protocol: the entity reacts to the peer's byte stream as to the frames in it. */
  lemma FramingIsTransparent(r: Running, p: ParserState, fs: seq<Printable>)
    requires Idle(p) && AllFit(fs)
    ensures ReceiveBytes(r, p, EncodedStream(fs)) == ReceiveFrames(r, fs)
  {
    ParseStream(p, fs);
    ReceiveArrivals(r, fs);
  }
}
