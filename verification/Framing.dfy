/** Generator and parser together: round trips, the size limit, resynchronisation
    after noise, and what a delivery that is marked valid is worth. */
module Framing {
  import opened Fcs16
  import opened Lfsr
  import opened HdlcFrames
  import opened FrameGenerator
  import opened FrameParsers
  import opened Mealy

  // The longest payload that fits into MAX_LENGTH with 6 bytes of overhead.
  const MAX_PAYLOAD := 1018

  // ---------- Byte stuffing ----------

  lemma UnescapedByte(b: byte, rest: seq<byte>)
    ensures Unescaped(EscapedByte(b) + rest) == Unstuffed([b] + Unescaped(rest).bytes, Unescaped(rest).bad)
  {
    var s := EscapedByte(b) + rest;
    if b == ESCAPE || b == FLAG {
      assert s[0] == ESCAPE && s[2..] == rest;
    } else {
      assert s[0] == b && s[1..] == rest;
    }
  }

  lemma EscapedFirst(s: seq<byte>, t: seq<byte>)
    requires s != []
    ensures Escaped(s) + t == EscapedByte(s[0]) + (Escaped(s[1..]) + t)
  {
  }

  /** Unstuffing goes on behind one stuffed byte as it would from there. */
  predicate Undone(s: seq<byte>, line: seq<byte>, t: Unstuffed) {
    Unescaped(line) == Unstuffed(s + t.bytes, t.bad)
  }

  lemma UndoneMore(b: byte, s: seq<byte>, rest: seq<byte>, t: Unstuffed)
    requires Undone(s, rest, t)
    ensures Undone([b] + s, EscapedByte(b) + rest, t)
  {
    UnescapedByte(b, rest);
    assert [b] + (s + t.bytes) == [b] + s + t.bytes;
  }

  lemma {:induction false} EscapedUndone(s: seq<byte>, t: seq<byte>)
    ensures Undone(s, Escaped(s) + t, Unescaped(t))
  {
    if s == [] {
      assert Escaped(s) + t == t;
    } else {
      EscapedUndone(s[1..], t);
      UndoneMore(s[0], s[1..], Escaped(s[1..]) + t, Unescaped(t));
      EscapedFirst(s, t);
      assert [s[0]] + s[1..] == s;
    }
  }

  lemma UnescapedEscaped(s: seq<byte>, t: seq<byte>)
    ensures Unescaped(Escaped(s) + t) == Unstuffed(s + Unescaped(t).bytes, Unescaped(t).bad)
  {
    EscapedUndone(s, t);
  }

  lemma {:induction false} EscapedHasNoFlag(s: seq<byte>)
    ensures FLAG !in Escaped(s)
    ensures s != [] ==> Escaped(s) != [] && Escaped(s)[|Escaped(s)| - 1] != ESCAPE
  {
    if s != [] {
      EscapedHasNoFlag(s[1..]);
    }
  }

  // ---------- One line image ----------

  /** What the parser makes of a body, valid or not, that arrives stuffed and delimited. */
  function Received(body: seq<byte>): Delivery
    requires |body| >= 4
  {
    Delivery(Delimited(body), Deserialized(Delimited(body)), !Accepts(body))
  }

  lemma UnescapedLine(body: seq<byte>)
    ensures Unescaped(Delimited(Escaped(body))) == Unstuffed(Delimited(body), false)
  {
    var tail := Escaped(body) + [FLAG];
    assert Delimited(Escaped(body)) == [FLAG] + tail;
    assert ([FLAG] + tail)[1..] == tail;
    UnescapedEscaped(body, [FLAG]);
    assert [FLAG][1..] == [];
    assert Unescaped([FLAG]) == Unstuffed([FLAG], false);
    assert Unescaped([FLAG] + tail) == Unstuffed([FLAG] + (body + [FLAG]), false);
    assert [FLAG] + (body + [FLAG]) == Delimited(body);
  }

  lemma DelimitedInner(body: seq<byte>)
    ensures |Delimited(body)| == |body| + 2 && Delimited(body)[1..|Delimited(body)| - 1] == body
  {
  }

  lemma JudgeUnescaped(line: seq<byte>)
    requires |line| > 2 && line[|line| - 2] != ESCAPE
    ensures var u := Unescaped(line);
      Judge(line) == if |u.bytes| < 6 || |u.bytes| > MAX_LENGTH then Junk
        else Deliver(Delivery(u.bytes, Deserialized(u.bytes), u.bad || !Accepts(u.bytes[1..|u.bytes| - 1])))
  {
  }

  lemma JudgeUnstuffed(line: seq<byte>, body: seq<byte>)
    requires |line| >= 2 && (|line| == 2 ==> body == [])
    requires |line| > 2 ==> line[|line| - 2] != ESCAPE
    requires Unescaped(line) == Unstuffed(Delimited(body), false)
    ensures Judge(line) == if 4 <= |body| <= MAX_PAYLOAD + 4 then Deliver(Received(body)) else Junk
  {
    DelimitedInner(body);
    if |line| > 2 {
      JudgeUnescaped(line);
    }
  }

  lemma JudgeLine(body: seq<byte>)
    ensures Judge(Delimited(Escaped(body)))
         == if 4 <= |body| <= MAX_PAYLOAD + 4 then Deliver(Received(body)) else Junk
  {
    EscapedHasNoFlag(body);
    UnescapedLine(body);
    JudgeUnstuffed(Delimited(Escaped(body)), body);
  }

  /** The parser is between frames: it has seen no flag, or nothing after one. */
  predicate Idle(p: ParserState) {
    p == HUNTING || p == OPENED
  }

  /** What becomes of a line image: delivered exactly once if its size is right, and
      marked by the FCS; a body of any other size vanishes. */
  function Fate(body: seq<byte>): ParserOutcome {
    if 4 <= |body| <= MAX_PAYLOAD + 4
    then Outcome(if Accepts(body) then HUNTING else OPENED, [Received(body)])
    else Outcome(OPENED, [])
  }

  lemma ParseOpenedLine(body: seq<byte>)
    ensures Parse(OPENED, Escaped(body) + [FLAG]) == Fate(body)
  {
    EscapedHasNoFlag(body);
    EscapedLength(body);
    ParseFrame(OPENED, Escaped(body));
    JudgeLine(body);
  }

  lemma ParseFlag(p: ParserState)
    requires Idle(p)
    ensures Parse(p, [FLAG]) == Outcome(OPENED, [])
  {
    FeedOne(Step, p, FLAG);
    assert [FLAG] + [FLAG] == OPENED.buffer + [FLAG];
  }

  lemma ParseAfterFlag(p: ParserState, tail: seq<byte>)
    requires Idle(p)
    ensures Parse(p, [FLAG] + tail) == Parse(OPENED, tail)
  {
    ParseAppend(p, [FLAG], tail);
    ParseFlag(p);
  }

  lemma DelimitedIs(s: seq<byte>)
    ensures Delimited(s) == [FLAG] + (s + [FLAG])
  {
  }

  /** Every line image that arrives between frames meets its fate. */
  lemma ParseLine(p: ParserState, body: seq<byte>)
    requires Idle(p)
    ensures Parse(p, Delimited(Escaped(body))) == Fate(body)
  {
    DelimitedIs(Escaped(body));
    ParseAfterFlag(p, Escaped(body) + [FLAG]);
    ParseOpenedLine(body);
  }

  // ---------- What survives the wire ----------

  /** The frame the other side reads.  CMDR is coded like SNRM, and whatever the
      frame type has no field for is lost. */
  function OnWire(f: HdlcFrame): HdlcFrame {
    HdlcFrame(
      f.address,
      if f.frameType == CMDR then SNRM else f.frameType,
      f.pf,
      if f.IsIFrame() || f.IsSFrame() then f.rseq % 8 else 0,
      if f.IsIFrame() then f.sseq % 8 else 0,
      if CarriesPayload(f.frameType) then f.payload else [])
  }

  lemma ControlDecodes(f: Printable)
    ensures var c := ControlField(f);
      && FrameTypeOf(c) == OnWire(f).frameType
      && (c & 0x10 != 0) == f.pf
      && (f.IsIFrame() || f.IsSFrame() ==> ((c & 0xE0) >> 5) as nat == f.rseq % 8)
      && (f.IsIFrame() ==> ((c & 0x0E) >> 1) as nat == f.sseq % 8)
  {
  }

  /** Which control bytes stand for which frame type, the P/F bit and the numbers apart;
      all others are read as a frame without a type. */
  lemma ControlBytes(c: byte)
    ensures FrameTypeOf(c) == I <==> c & 0x01 == 0
    ensures FrameTypeOf(c) == RR <==> c & 0x0F == 0x01
    ensures FrameTypeOf(c) == RNR <==> c & 0x0F == 0x05
    ensures FrameTypeOf(c) == REJ <==> c & 0x0F == 0x09
    ensures FrameTypeOf(c) == SREJ <==> c & 0x0F == 0x0d
    ensures FrameTypeOf(c) == UI <==> c & 0xEF == 0x03
    ensures FrameTypeOf(c) == SIM <==> c & 0xEF == 0x07
    ensures FrameTypeOf(c) == SARM <==> c & 0xEF == 0x0f
    ensures FrameTypeOf(c) == UP <==> c & 0xEF == 0x23
    ensures FrameTypeOf(c) == SABM <==> c & 0xEF == 0x2f
    ensures FrameTypeOf(c) == DISC <==> c & 0xEF == 0x43
    ensures FrameTypeOf(c) == UA <==> c & 0xEF == 0x63
    ensures FrameTypeOf(c) == SNRM <==> c & 0xEF == 0x83
    ensures FrameTypeOf(c) == CMDR <==> c & 0xEF == 0x87
    ensures FrameTypeOf(c) == TEST <==> c & 0xEF == 0xe3
    ensures FrameTypeOf(c) == XID <==> c & 0xEF == 0xe7
  {
  }

  /** Stuffing (RFC 1662, section 4.2): the two special bytes with the sixth bit flipped. */
  lemma EscapeFlipsBit(b: byte)
    ensures EscapedByte(b) == if b == 0x7E || b == 0x7D then [0x7D, b ^ 0x20] else [b]
  {
  }

  lemma BodyDecodes(f: Printable)
    ensures Deserialized(Delimited(Body(f))) == OnWire(f)
  {
    ControlDecodes(f);
    var b := Delimited(Body(f));
    assert b[1] == f.address && b[2] == ControlField(f);
    if CarriesPayload(f.frameType) {
      assert b[3..|b| - 3] == f.payload;
    }
  }

  /** The frame types and contents that reach the other side unchanged. */
  predicate Faithful(f: Printable) {
    && f.frameType != CMDR
    && f.rseq < 8 && f.sseq < 8
    && (!f.IsIFrame() ==> f.sseq == 0)
    && (!f.IsIFrame() && !f.IsSFrame() ==> f.rseq == 0)
    && (f.frameType !in {I, UI} ==> f.payload == [])
  }

  lemma OnWireIffFaithful(f: Printable)
    ensures OnWire(f) == f <==> Faithful(f)
  {
  }

  predicate Fits(f: Printable) {
    CarriesPayload(f.frameType) ==> |f.payload| <= MAX_PAYLOAD
  }

  /** The delivery a generated frame leads to. */
  function Arrival(f: Printable): Delivery {
    Delivery(Delimited(Body(f)), OnWire(f), false)
  }

  /** A generated frame is delivered if and only if it fits. */
  lemma ParseEncoded(p: ParserState, f: Printable)
    requires Idle(p)
    ensures Parse(p, Encoded(f)) == if Fits(f) then Outcome(HUNTING, [Arrival(f)]) else Outcome(OPENED, [])
  {
    WithFcsAccepted(Covered(f));
    ParseLine(p, Body(f));
    BodyDecodes(f);
  }

  // ---------- Streams ----------

  function EncodedStream(fs: seq<Printable>): seq<byte> {
    if fs == [] then [] else Encoded(fs[0]) + EncodedStream(fs[1..])
  }

  function Arrivals(fs: seq<Printable>): seq<Delivery> {
    if fs == [] then [] else [Arrival(fs[0])] + Arrivals(fs[1..])
  }

  predicate AllFit(fs: seq<Printable>) {
    forall i :: 0 <= i < |fs| ==> Fits(fs[i])
  }

  function Concat(chunks: seq<seq<byte>>): seq<byte> {
    if chunks == [] then [] else chunks[0] + Concat(chunks[1..])
  }

  /** The parser called once per chunk. */
  function ParseChunks(p: ParserState, chunks: seq<seq<byte>>): ParserOutcome
    decreases |chunks|
  {
    if chunks == [] then Outcome(p, [])
    else
      var first := Parse(p, chunks[0]);
      var rest := ParseChunks(first.state, chunks[1..]);
      Outcome(rest.state, first.outputs + rest.outputs)
  }

  /** Only the bytes matter, not how they are cut into chunks. */
  lemma {:induction false} ChunkingIrrelevant(p: ParserState, chunks: seq<seq<byte>>)
    ensures ParseChunks(p, chunks) == Parse(p, Concat(chunks))
    decreases |chunks|
  {
    if chunks != [] {
      ChunkingIrrelevant(Parse(p, chunks[0]).state, chunks[1..]);
      ParseAppend(p, chunks[0], Concat(chunks[1..]));
    }
  }

  lemma {:induction false} ParseStream(p: ParserState, fs: seq<Printable>)
    requires Idle(p) && AllFit(fs)
    ensures Parse(p, EncodedStream(fs)) == Outcome(if fs == [] then p else HUNTING, Arrivals(fs))
    decreases |fs|
  {
    if fs != [] {
      ParseEncoded(p, fs[0]);
      ParseStream(HUNTING, fs[1..]);
      ParseAppend(p, Encoded(fs[0]), EncodedStream(fs[1..]));
    }
  }

  /** A stream of generated frames, cut up in any way, is delivered frame by frame. */
  lemma StreamRoundTrip(fs: seq<Printable>, chunks: seq<seq<byte>>)
    requires AllFit(fs)
    requires Concat(chunks) == EncodedStream(fs)
    ensures ParseChunks(HUNTING, chunks) == Outcome(HUNTING, Arrivals(fs))
  {
    ChunkingIrrelevant(HUNTING, chunks);
    ParseStream(HUNTING, fs);
  }

  lemma {:induction false} ArrivalsAt(fs: seq<Printable>, i: nat)
    requires i < |fs|
    ensures |Arrivals(fs)| == |fs| && Arrivals(fs)[i] == Arrival(fs[i])
  {
    if |fs| > 1 {
      ArrivalsAt(fs[1..], if i == 0 then 0 else i - 1);
    }
  }

  // ---------- Noise ----------

  /** Whatever the parser was in the middle of, a frame leaves it between frames. */
  lemma FrameSettles(p: ParserState, f: Printable)
    ensures Idle(Parse(p, Encoded(f)).state)
  {
    var e := Escaped(Body(f));
    EscapedHasNoFlag(Body(f));
    assert Encoded(f) == [FLAG] + (e + [FLAG]);
    ParseAppend(p, [FLAG], e + [FLAG]);
    FeedOne(Step, p, FLAG);
    var q := Step(p, FLAG).state;
    assert Idle(q);
    if q == OPENED {
      ParseOpenedLine(Body(f));
    } else {
      ParseOpening(q, e);
    }
  }

  lemma SettledStream(p: ParserState, f: Printable, fs: seq<Printable>)
    requires AllFit(fs)
    ensures var o := Parse(p, Encoded(f)); var s := Parse(p, EncodedStream([f] + fs));
      s == Outcome(if fs == [] then o.state else HUNTING, o.outputs + Arrivals(fs))
  {
    FrameSettles(p, f);
    ParseStream(Parse(p, Encoded(f)).state, fs);
    assert ([f] + fs)[1..] == fs;
    ParseAppend(p, Encoded(f), EncodedStream(fs));
  }

  lemma Regroup3<T>(a: seq<T>, b: seq<T>, c: seq<T>)
    ensures a + (b + c) == a + b + c
  {
  }

  /** After any noise whatever, at most the first frame of a stream is lost: the
      others are the last deliveries, valid and intact. */
  lemma Resynchronises(noise: seq<byte>, f: Printable, fs: seq<Printable>)
    requires AllFit(fs)
    ensures var before := Parse(HUNTING, noise);
      Parse(HUNTING, noise + EncodedStream([f] + fs)).outputs
        == before.outputs + Parse(before.state, Encoded(f)).outputs + Arrivals(fs)
  {
    var before := Parse(HUNTING, noise);
    ParseAppend(HUNTING, noise, EncodedStream([f] + fs));
    SettledStream(before.state, f, fs);
    Regroup3(before.outputs, Parse(before.state, Encoded(f)).outputs, Arrivals(fs));
  }

  // ---------- What a delivery is worth ----------

  predicate Sound(d: Delivery) {
    && 6 <= |d.raw| <= MAX_LENGTH
    && d.frame == Deserialized(d.raw) && d.frame.address == d.raw[1]
    && d.frame.rseq < 8 && d.frame.sseq < 8
    && d.frame.payload == (if d.frame.frameType in {I, UI, CMDR, TEST, XID} then d.raw[3..|d.raw| - 3] else [])
    && (!d.invalid ==> var body := d.raw[1..|d.raw| - 1]; Accepts(body) && Ones(Bits(body)) % 2 == 0)
  }

  lemma SequenceNumbersAreThreeBits(buffer: seq<byte>)
    requires |buffer| >= 6
    ensures Deserialized(buffer).rseq < 8 && Deserialized(buffer).sseq < 8
  {
  }

  lemma DeserializedParts(buffer: seq<byte>)
    requires |buffer| >= 6
    ensures var f := Deserialized(buffer);
      && f.address == buffer[1]
      && f.payload == (if f.frameType in {I, UI, CMDR, TEST, XID} then buffer[3..|buffer| - 3] else [])
  {
  }

  lemma JudgeSound(buffer: seq<byte>)
    requires |buffer| >= 2
    ensures Judge(buffer).Deliver? ==> Sound(Judge(buffer).delivery)
  {
    if Judge(buffer).Deliver? {
      var d := Judge(buffer).delivery;
      SequenceNumbersAreThreeBits(d.raw);
      DeserializedParts(d.raw);
      if !d.invalid {
        AcceptedBodyIsEven(d.raw[1..|d.raw| - 1]);
      }
    }
  }

  /** On any input whatever, every delivery has three-bit sequence numbers and a
      legal size, and one that is marked valid passed the FCS. */
  lemma {:induction false} DeliveriesSound(p: ParserState, bytes: seq<byte>)
    ensures forall d :: d in Parse(p, bytes).outputs ==> Sound(d)
    decreases |bytes|
  {
    if bytes != [] {
      if p.startTokenSeen && |p.buffer| + 1 <= 2 * MAX_LENGTH && bytes[0] == FLAG {
        JudgeSound(p.buffer + [bytes[0]]);
      }
      DeliveriesSound(Step(p, bytes[0]).state, bytes[1..]);
    }
  }

  /** A body hit by a burst of at most 16 wrong bits is delivered, but never as valid. */
  lemma BurstMarkedInvalid(p: ParserState, good: seq<byte>, bad: seq<byte>, at: nat, len: nat)
    requires Idle(p) && 4 <= |good| <= MAX_PAYLOAD + 4 && Accepts(good)
    requires |good| == |bad| && at + len <= 8 * |good| && len <= 16
    requires Bits(good)[..at] == Bits(bad)[..at] && Bits(good)[at + len..] == Bits(bad)[at + len..]
    requires good != bad
    ensures Parse(p, Delimited(Escaped(bad)))
         == Outcome(OPENED, [Delivery(Delimited(bad), Deserialized(Delimited(bad)), true)])
  {
    BurstDetected(good, bad, at, len);
    ParseLine(p, bad);
  }

  // ---------- What a valid delivery was on the line ----------

  lemma EscapedOneMore(b: byte, t: seq<byte>)
    ensures Escaped([b] + t) == EscapedByte(b) + Escaped(t)
  {
    assert ([b] + t)[1..] == t;
  }

  /** The first stuffed byte of a line, and what unstuffing makes of it. */
  lemma FirstUnescaped(s: seq<byte>) returns (n: nat, b: byte)
    requires s != [] && !Unescaped(s).bad && FLAG !in s && s[|s| - 1] != ESCAPE
    ensures 1 <= n <= |s| && s[..n] == EscapedByte(b) && (s[n..] != [] ==> s[n..][|s| - n - 1] == s[|s| - 1])
    ensures Unescaped(s) == Unstuffed([b] + Unescaped(s[n..]).bytes, false) && !Unescaped(s[n..]).bad
  {
    if s[0] == ESCAPE {
      n, b := 2, UnstuffedByte(s[1]);
    } else {
      n, b := 1, s[0];
      assert s[0] != FLAG;
    }
  }

  /** Unstuffing without complaint was stuffing. */
  lemma {:induction false} EscapedUnescaped(s: seq<byte>)
    requires !Unescaped(s).bad && FLAG !in s && (s != [] ==> s[|s| - 1] != ESCAPE)
    ensures Escaped(Unescaped(s).bytes) == s
    decreases |s|
  {
    if s != [] {
      var n, b := FirstUnescaped(s);
      EscapedUnescaped(s[n..]);
      EscapedOneMore(b, Unescaped(s[n..]).bytes);
      assert s == s[..n] + s[n..];
    }
  }

  lemma {:induction false} UnescapedFlag(s: seq<byte>)
    requires s != [] ==> s[|s| - 1] != ESCAPE
    ensures Unescaped(s + [FLAG]) == Unstuffed(Unescaped(s).bytes + [FLAG], Unescaped(s).bad)
    decreases |s|
  {
    if s == [] {
      assert s + [FLAG] == [FLAG] && [FLAG][1..] == [];
      assert Unescaped([]) == Unstuffed([], false);
    } else {
      var n := if s[0] == ESCAPE then 2 else 1;
      assert (s + [FLAG])[n..] == s[n..] + [FLAG];
      UnescapedFlag(s[n..]);
      var rest := Unescaped(s[n..]);
      assert [if n == 2 then UnstuffedByte(s[1]) else s[0]] + (rest.bytes + [FLAG])
          == [if n == 2 then UnstuffedByte(s[1]) else s[0]] + rest.bytes + [FLAG];
    }
  }

  lemma UnescapedBuffer(inner: seq<byte>)
    requires inner != [] ==> inner[|inner| - 1] != ESCAPE
    ensures Unescaped(Delimited(inner)) == Unstuffed(Delimited(Unescaped(inner).bytes), Unescaped(inner).bad)
  {
    DelimitedIs(inner);
    DelimitedIs(Unescaped(inner).bytes);
    UnescapedFlag(inner);
    assert ([FLAG] + (inner + [FLAG]))[1..] == inner + [FLAG];
  }

  /** The delivery is that of a body that was stuffed and delimited, passes its check and
      fits. */
  predicate Genuine(buffer: seq<byte>, body: seq<byte>, d: Delivery) {
    && buffer == Delimited(Escaped(body)) && 4 <= |body| <= MAX_PAYLOAD + 4 && Accepts(body)
    && d == Received(body) && !d.invalid
  }

  predicate Passed(v: Verdict) {
    v.Deliver? && !v.delivery.invalid
  }

  lemma AbortedFails(inner: seq<byte>)
    requires inner != [] && inner[|inner| - 1] == ESCAPE
    ensures !Passed(Judge(Delimited(inner)))
  {
    var line := Delimited(inner);
    assert line[|line| - 2] == ESCAPE;
  }

  lemma JudgedValid(inner: seq<byte>)
    requires FLAG !in inner
    ensures var v := Judge(Delimited(inner));
      Passed(v) ==> Genuine(Delimited(inner), Unescaped(inner).bytes, v.delivery)
  {
    if inner != [] && inner[|inner| - 1] == ESCAPE {
      AbortedFails(inner);
    } else {
      UnescapedBuffer(inner);
      DelimitedInner(inner);
      DelimitedInner(Unescaped(inner).bytes);
      if !Unescaped(inner).bad {
        EscapedUnescaped(inner);
      }
    }
  }

  /** A frame is marked valid if and only if it is the line image of such a body. */
  lemma ValidIffGenuine(inner: seq<byte>)
    requires FLAG !in inner
    ensures var v := Judge(Delimited(inner));
      Passed(v) <==>
        exists body :: inner == Escaped(body) && 4 <= |body| <= MAX_PAYLOAD + 4 && Accepts(body)
  {
    var v := Judge(Delimited(inner));
    JudgedValid(inner);
    if Passed(v) {
      var body := Unescaped(inner).bytes;
      DelimitedInner(inner);
      DelimitedInner(Escaped(body));
      assert inner == Escaped(body);
    }
    if body :| inner == Escaped(body) && 4 <= |body| <= MAX_PAYLOAD + 4 && Accepts(body) {
      JudgeLine(body);
    }
  }

  /** An escape byte right before the closing flag aborts the frame: it is handed over
      as it came, marked invalid. */
  lemma AbortedFrame(s: seq<byte>)
    requires FLAG !in s && |s| + 3 <= 2 * MAX_LENGTH
    ensures var line := Delimited(s + [ESCAPE]);
      Parse(OPENED, s + [ESCAPE] + [FLAG])
      == Outcome(OPENED, if 6 <= |s| + 3 <= MAX_LENGTH then [Delivery(line, Deserialized(line), true)] else [])
  {
    var inner := s + [ESCAPE];
    DelimitedIs(inner);
    ParseFrame(OPENED, inner);
    var line := Delimited(inner);
    assert [FLAG] + inner + [FLAG] == line && line[|line| - 2] == ESCAPE;
  }

  /** After an escape byte any byte but the two is kept as it is. */
  lemma IllegalUnescaped(b: byte, rest: seq<byte>)
    requires b != 0x5D && b != 0x5E
    ensures Unescaped([ESCAPE, b] + rest) == Unstuffed([b] + Unescaped(rest).bytes, true)
  {
    assert ([ESCAPE, b] + rest)[2..] == rest;
  }

  function Spoilt(x: seq<byte>, b: byte, y: seq<byte>): seq<byte> {
    Escaped(x) + ([ESCAPE, b] + Escaped(y))
  }

  lemma SpoiltUnescaped(x: seq<byte>, b: byte, y: seq<byte>)
    requires b != 0x5D && b != 0x5E
    ensures Unescaped(Spoilt(x, b, y)) == Unstuffed(x + ([b] + y), true)
  {
    IllegalUnescaped(b, Escaped(y));
    UnescapedEscaped(y, []);
    assert Escaped(y) + [] == Escaped(y) && y + [] == y && Unescaped([]) == Unstuffed([], false);
    UnescapedEscaped(x, [ESCAPE, b] + Escaped(y));
  }

  lemma SpoiltEnd(x: seq<byte>, b: byte, y: seq<byte>)
    requires y == [] ==> b != ESCAPE
    ensures var s := Spoilt(x, b, y); s != [] && s[|s| - 1] != ESCAPE
  {
    EscapedHasNoFlag(y);
  }

  lemma JudgedBad(inner: seq<byte>, body: seq<byte>)
    requires inner != [] && inner[|inner| - 1] != ESCAPE
    requires Unescaped(Delimited(inner)) == Unstuffed(Delimited(body), true)
    ensures var raw := Delimited(body);
      Judge(Delimited(inner))
      == if 4 <= |body| <= MAX_PAYLOAD + 4 then Deliver(Delivery(raw, Deserialized(raw), true)) else Junk
  {
    DelimitedInner(inner);
    DelimitedInner(body);
    var line := Delimited(inner);
    assert line[|line| - 2] == inner[|inner| - 1];
    JudgeUnescaped(line);
  }

  /** And the frame is handed over with that byte, marked invalid. */
  lemma IllegalSequence(x: seq<byte>, b: byte, y: seq<byte>)
    requires b !in {0x5D, 0x5E, FLAG} && (y == [] ==> b != ESCAPE)
    ensures var raw := Delimited(x + ([b] + y));
      Judge(Delimited(Escaped(x) + ([ESCAPE, b] + Escaped(y))))
      == if 4 <= |x| + 1 + |y| <= MAX_PAYLOAD + 4 then Deliver(Delivery(raw, Deserialized(raw), true)) else Junk
  {
    var inner := Spoilt(x, b, y);
    SpoiltUnescaped(x, b, y);
    SpoiltEnd(x, b, y);
    UnescapedBuffer(inner);
    JudgedBad(inner, x + ([b] + y));
  }

  /** What the parser holds is the end of what it has read. */
  predicate Remembers(p: ParserState, bytes: seq<byte>) {
    p.startTokenSeen ==> |p.buffer| <= |bytes| && bytes[|bytes| - |p.buffer|..] == p.buffer
  }

  lemma StepRemembers(p: ParserState, bytes: seq<byte>, b: byte)
    requires Remembers(p, bytes)
    ensures Remembers(FrameParsers.Step(p, b).state, bytes + [b])
  {
    var line := bytes + [b];
    if b == FLAG {
      assert line[|line| - 1..] == [FLAG];
    }
    if p.startTokenSeen {
      assert line[|line| - |p.buffer| - 1..] == bytes[|bytes| - |p.buffer|..] + [b];
    }
  }

  /** The image of the delivered frame stands on the line, complete. */
  ghost predicate OnLine(bytes: seq<byte>, d: Delivery) {
    exists i: nat, j: nat :: i <= j <= |bytes| && IsGenuine(bytes[i..j], d)
  }

  ghost predicate IsGenuine(line: seq<byte>, d: Delivery) {
    exists body :: Genuine(line, body, d)
  }

  lemma HeldLine(p: ParserState, bytes: seq<byte>)
    requires Remembers(p, bytes) && p.startTokenSeen
    ensures var line := bytes + [FLAG]; var i := |bytes| - |p.buffer|;
      0 <= i <= |line| && line[i..|line|] == Delimited(p.buffer[1..]) && FLAG !in p.buffer[1..]
  {
    var i := |bytes| - |p.buffer|;
    assert p.buffer == [FLAG] + p.buffer[1..];
    assert (bytes + [FLAG])[i..|bytes| + 1] == bytes[i..] + [FLAG];
  }

  lemma StepDeliversLine(p: ParserState, bytes: seq<byte>, b: byte)
    requires Remembers(p, bytes)
    ensures forall d :: d in FrameParsers.Step(p, b).outputs && !d.invalid ==> OnLine(bytes + [b], d)
  {
    if p.startTokenSeen && b == FLAG && |p.buffer| + 1 <= 2 * MAX_LENGTH {
      HeldLine(p, bytes);
      var line, inner, i := bytes + [FLAG], p.buffer[1..], |bytes| - |p.buffer|;
      assert p.buffer + [FLAG] == Delimited(inner);
      JudgedValid(inner);
      var v := Judge(Delimited(inner));
      if Passed(v) {
        assert Genuine(line[i..|line|], Unescaped(inner).bytes, v.delivery);
        assert IsGenuine(line[i..|line|], v.delivery);
      }
    }
  }

  lemma SameSlice(bytes: seq<byte>, b: byte, i: nat, j: nat)
    requires i <= j <= |bytes|
    ensures (bytes + [b])[i..j] == bytes[i..j]
  {
  }

  lemma OnLongerLine(bytes: seq<byte>, b: byte, d: Delivery)
    requires OnLine(bytes, d)
    ensures OnLine(bytes + [b], d)
  {
    var i: nat, j: nat :| i <= j <= |bytes| && IsGenuine(bytes[i..j], d);
    SameSlice(bytes, b, i, j);
  }

  /** Whatever arrives on the line, cut or not: every frame that is delivered as valid
      was there, stuffed and delimited, with its check sequence, byte for byte. */
  lemma {:induction false} NothingFromNothing(bytes: seq<byte>)
    ensures Remembers(Parse(HUNTING, bytes).state, bytes)
    ensures forall d :: d in Parse(HUNTING, bytes).outputs && !d.invalid ==> OnLine(bytes, d)
    decreases |bytes|
  {
    if bytes != [] {
      var n := |bytes| - 1;
      var before, b := bytes[..n], bytes[n];
      assert bytes == before + [b];
      var x := Parse(HUNTING, before);
      NothingFromNothing(before);
      ParseAppend(HUNTING, before, [b]);
      FeedOne(FrameParsers.Step, x.state, b);
      StepRemembers(x.state, before, b);
      StepDeliversLine(x.state, before, b);
      forall d | d in x.outputs && !d.invalid ensures OnLine(bytes, d) {
        OnLongerLine(before, b, d);
      }
    }
  }
}
