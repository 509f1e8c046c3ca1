/** From bytes on the serial line back to frames.

  The parser is fed chunks of any size.  Its meaning is given by an automaton that
  reads a single byte at a time (`Step`, `Feed`); the class below handles whole
  chunks and is proved to do the same.
 */
module FrameParsers {
  import opened Fcs16
  import opened HdlcFrames
  import opened Mealy

  const MAX_LENGTH := 1024

  // ---------- One complete frame ----------

  /** What is handed to the protocol entity for a frame. */
  datatype Delivery = Delivery(raw: seq<byte>, frame: HdlcFrame, invalid: bool)

  datatype Verdict = Junk | Deliver(delivery: Delivery)

  function FrameTypeOf(ctrl: byte): FrameType {
    if ctrl & 0x01 == 0 then I
    else if ctrl & 0x02 == 0 then
      match (ctrl & 0x0c) >> 2
      case 0x00 => RR
      case 0x01 => RNR
      case 0x02 => REJ
      case _ => SREJ
    else
      match ((ctrl & 0x0c) >> 2) | ((ctrl & 0xe0) >> 3)
      case 0x00 => UI
      case 0x01 => SIM
      case 0x03 => SARM
      case 0x04 => UP
      case 0x07 => SABM
      case 0x08 => DISC
      case 0x0c => UA
      case 0x10 => SNRM
      case 0x11 => CMDR
      case 0x1c => TEST
      case 0x1d => XID
      case _ => Unset
  }

  predicate ParsesPayload(t: FrameType) {
    t in {I, UI, CMDR, TEST, XID}
  }

  function Deserialized(buffer: seq<byte>): HdlcFrame
    requires |buffer| >= 6
  {
    var ctrl := buffer[2];
    var t := FrameTypeOf(ctrl);
    HdlcFrame(
      buffer[1], t, ctrl & 0x10 != 0,
      if t == I || t.IsS() then ((ctrl & 0xE0) >> 5) as nat else 0,
      if t == I then ((ctrl & 0x0E) >> 1) as nat else 0,
      if ParsesPayload(t) then buffer[3..|buffer| - 3] else [])
  }

  datatype Unstuffed = Unstuffed(bytes: seq<byte>, bad: bool)

  function UnstuffedByte(b: byte): byte {
    if b == 0x5E then FLAG else if b == 0x5D then ESCAPE else b
  }

  function Unescaped(s: seq<byte>): Unstuffed {
    if s == [] then Unstuffed([], false)
    else if s[0] == ESCAPE && |s| >= 2 then
      var rest := Unescaped(s[2..]);
      Unstuffed([UnstuffedByte(s[1])] + rest.bytes, rest.bad || (s[1] != 0x5E && s[1] != 0x5D))
    else
      var rest := Unescaped(s[1..]);
      Unstuffed([s[0]] + rest.bytes, rest.bad)
  }

  lemma Regroup(a: seq<byte>, b: byte, c: seq<byte>)
    ensures a + [b] + c == a + ([b] + c)
  {
  }

  /** Unstuffing one byte, which takes one or two bytes of the input. */
  lemma UnescapedFront(s: seq<byte>, i: nat) returns (rest: Unstuffed)
    requires i < |s| && s[|s| - 1] != ESCAPE
    ensures s[i] == ESCAPE ==>
      && rest == Unescaped(s[i + 2..])
      && Unescaped(s[i..]) == Unstuffed([UnstuffedByte(s[i + 1])] + rest.bytes, rest.bad || (s[i + 1] != 0x5E && s[i + 1] != 0x5D))
    ensures s[i] != ESCAPE ==>
      && rest == Unescaped(s[i + 1..])
      && Unescaped(s[i..]) == Unstuffed([s[i]] + rest.bytes, rest.bad)
  {
    if s[i] == ESCAPE {
      assert s[i..][2..] == s[i + 2..];
      rest := Unescaped(s[i + 2..]);
    } else {
      assert s[i..][1..] == s[i + 1..];
      rest := Unescaped(s[i + 1..]);
    }
  }

  /** The fate of a buffer that starts and ends with a flag. */
  function Judge(buffer: seq<byte>): Verdict
    requires |buffer| >= 2
  {
    if |buffer| == 2 then Junk
    else
      var u := if buffer[|buffer| - 2] == ESCAPE then Unstuffed(buffer, true) else Unescaped(buffer);
      if |u.bytes| < 6 || |u.bytes| > MAX_LENGTH then Junk
      else
        Deliver(Delivery(u.bytes, Deserialized(u.bytes), u.bad || !Accepts(u.bytes[1..|u.bytes| - 1])))
  }

  // ---------- The byte automaton ----------

  datatype State = State(buffer: seq<byte>, startTokenSeen: bool)
  {
    predicate Valid() {
      && 1 <= |buffer| <= 2 * MAX_LENGTH
      && buffer[0] == FLAG
      && FLAG !in buffer[1..]
      && (!startTokenSeen ==> |buffer| == 1)
    }
  }

  /** The states the parser can be in. */
  type ParserState = s: State | s.Valid() witness State([FLAG], false)

  const HUNTING: ParserState := State([FLAG], false)
  const OPENED: ParserState := State([FLAG], true)

  type ParserOutcome = Outcome<ParserState, Delivery>

  /** After the flag that ends a buffer.  A valid frame uses its closing flag up;
      after junk and after an invalid frame the flag opens the next frame. */
  function Closed(buffer: seq<byte>): ParserOutcome
    requires |buffer| >= 2
  {
    match Judge(buffer)
    case Junk => Outcome(OPENED, [])
    case Deliver(d) => Outcome(if d.invalid then OPENED else HUNTING, [d])
  }

  function Step(p: ParserState, b: byte): ParserOutcome {
    if !p.startTokenSeen then
      Outcome(if b == FLAG then OPENED else p, [])
    else if |p.buffer| + 1 > 2 * MAX_LENGTH then
      Outcome(if b == FLAG then OPENED else HUNTING, [])
    else if b == FLAG then
      Closed(p.buffer + [b])
    else
      Outcome(Collected(p, [b]), [])
  }

  function Collected(p: ParserState, s: seq<byte>): (q: ParserState)
    requires p.startTokenSeen && FLAG !in s && |p.buffer| + |s| <= 2 * MAX_LENGTH
  {
    var buffer := p.buffer + s;
    assert buffer[1..] == p.buffer[1..] + s;
    State(buffer, true)
  }

  /** The whole run of the parser on a stream of bytes. */
  function Parse(p: ParserState, bytes: seq<byte>): ParserOutcome {
    Feed(Step, p, bytes)
  }

  /** Feeding a stream in two pieces is feeding it at once. */
  lemma ParseAppend(p: ParserState, a: seq<byte>, b: seq<byte>)
    ensures var x := Parse(p, a); var y := Parse(x.state, b);
      Parse(p, a + b) == Outcome(y.state, x.outputs + y.outputs)
  {
    FeedAppend(Step, p, a, b);
  }

  lemma {:induction false} ParseJunk(p: ParserState, s: seq<byte>)
    requires !p.startTokenSeen && FLAG !in s
    ensures Parse(p, s) == Outcome(p, [])
    decreases |s|
  {
    if s != [] {
      ParseJunk(p, s[1..]);
    }
  }

  /** Bytes without a flag are collected, or give up the frame. */
  lemma {:induction false} ParseBody(p: ParserState, s: seq<byte>)
    requires p.startTokenSeen && FLAG !in s
    ensures Parse(p, s) ==
      Outcome(if |p.buffer| + |s| <= 2 * MAX_LENGTH then Collected(p, s) else HUNTING, [])
    decreases |s|
  {
    if s == [] {
      assert Collected(p, s) == p;
    } else if |p.buffer| + 1 > 2 * MAX_LENGTH {
      ParseJunk(HUNTING, s[1..]);
    } else {
      var q := Collected(p, [s[0]]);
      ParseBody(q, s[1..]);
      assert q.buffer + s[1..] == p.buffer + s;
    }
  }

  /** A body and the flag that ends it, whichever of the two overflow paths is taken. */
  lemma ParseFrame(p: ParserState, s: seq<byte>)
    requires p.startTokenSeen && FLAG !in s
    ensures Parse(p, s + [FLAG]) ==
      if |p.buffer| + |s| + 1 <= 2 * MAX_LENGTH then Closed(p.buffer + s + [FLAG]) else Outcome(OPENED, [])
  {
    FeedAppend(Step, p, s, [FLAG]);
    ParseBody(p, s);
    FeedOne(Step, Parse(p, s).state, FLAG);
  }

  lemma ParseOpening(p: ParserState, s: seq<byte>)
    requires !p.startTokenSeen && FLAG !in s
    ensures Parse(p, s + [FLAG]) == Outcome(OPENED, [])
  {
    FeedAppend(Step, p, s, [FLAG]);
    ParseJunk(p, s);
    FeedOne(Step, p, FLAG);
  }

  // ---------- The parser itself ----------

  /** memchr: where the first flag is, or the length if there is none. */
  function FlagIndex(s: seq<byte>): (i: nat)
    ensures i <= |s| && FLAG !in s[..i] && (i < |s| ==> s[i] == FLAG)
  {
    if s == [] || s[0] == FLAG then 0
    else
      var k := FlagIndex(s[1..]);
      assert s[..1 + k] == [s[0]] + s[1..][..k];
      1 + k
  }

  class FrameParser {
    var buffer: seq<byte>
    var startTokenSeen: bool
    // Everything that was handed to the protocol entity.
    var delivered: seq<Delivery>

    ghost function View(): State
      reads this
    {
      State(buffer, startTokenSeen)
    }

    ghost predicate Valid()
      reads this
    {
      View().Valid()
    }

    constructor ()
      ensures View() == HUNTING && delivered == []
    {
      buffer := [FLAG];
      startTokenSeen := false;
      delivered := [];
    }

    method Reset()
      modifies this
      ensures View() == HUNTING && delivered == old(delivered)
    {
      buffer := [];
      buffer := buffer + [FLAG];
      startTokenSeen := false;
    }

    /** Any chunk is processed as if its bytes had arrived one by one. */
    method AddReceivedRawBytes(bytes: seq<byte>)
      requires Valid()
      modifies this
      ensures Valid()
      ensures View() == Parse(old(View()), bytes).state
      ensures delivered == old(delivered) + Parse(old(View()), bytes).outputs
    {
      var rest := bytes;
      ghost var done := [];
      while rest != []
        invariant Valid()
        invariant bytes == done + rest
        invariant View() == Parse(old(View()), done).state
        invariant delivered == old(delivered) + Parse(old(View()), done).outputs
        decreases |rest|
      {
        var n := AddChunk(rest);
        ParseAppend(old(View()), done, rest[..n]);
        done := done + rest[..n];
        rest := rest[n..];
      }
      assert done == bytes;
    }

    method AddChunk(chunk: seq<byte>) returns (consumed: nat)
      requires Valid() && chunk != []
      modifies this
      ensures 1 <= consumed <= |chunk|
      ensures Valid()
      ensures View() == Parse(old(View()), chunk[..consumed]).state
      ensures delivered == old(delivered) + Parse(old(View()), chunk[..consumed]).outputs
    {
      var at := FlagIndex(chunk);
      if !startTokenSeen {
        consumed := SeekStart(chunk, at);
      } else if at < |chunk| {
        EndFrame(chunk[..at]);
        consumed := at + 1;
        assert chunk[..consumed] == chunk[..at] + [FLAG];
      } else {
        CollectBytes(chunk);
        consumed := |chunk|;
        assert chunk[..consumed] == chunk;
      }
    }

    /** Bytes before the first flag are junk. */
    method SeekStart(chunk: seq<byte>, at: nat) returns (consumed: nat)
      requires Valid() && !startTokenSeen && chunk != [] && at == FlagIndex(chunk)
      modifies this
      ensures 1 <= consumed <= |chunk|
      ensures Valid() && delivered == old(delivered)
      ensures Parse(old(View()), chunk[..consumed]) == Outcome(View(), [])
    {
      if at < |chunk| {
        startTokenSeen := true;
        assert buffer == [FLAG];
        ParseOpening(old(View()), chunk[..at]);
        assert chunk[..at + 1] == chunk[..at] + [FLAG];
        if at == 0 {
          return 1;
        } else {
          return at + 1;
        }
      } else {
        ParseJunk(View(), chunk);
        assert chunk[..|chunk|] == chunk;
        return |chunk|;
      }
    }

    /** The rest of a frame and the flag that ends it; too much of it is dropped. */
    method EndFrame(rest: seq<byte>)
      requires Valid() && startTokenSeen && FLAG !in rest
      modifies this
      ensures Valid()
      ensures View() == Parse(old(View()), rest + [FLAG]).state
      ensures delivered == old(delivered) + Parse(old(View()), rest + [FLAG]).outputs
    {
      ParseFrame(View(), rest);
      assert buffer + (rest + [FLAG]) == buffer + rest + [FLAG];
      if |buffer| + |rest| + 1 <= 2 * MAX_LENGTH {
        CloseFrame(rest + [FLAG]);
      }
      buffer := [FLAG];
    }

    /** More of a frame; too much of it gives the frame up. */
    method CollectBytes(chunk: seq<byte>)
      requires Valid() && startTokenSeen && FLAG !in chunk
      modifies this
      ensures Valid() && delivered == old(delivered)
      ensures Parse(old(View()), chunk) == Outcome(View(), [])
    {
      ParseBody(View(), chunk);
      if |buffer| + |chunk| > 2 * MAX_LENGTH {
        startTokenSeen := false;
        buffer := [FLAG];
      } else {
        buffer := buffer + chunk;
      }
    }

    /** The buffer is completed by the closing flag and judged. */
    method CloseFrame(rest: seq<byte>)
      requires Valid() && startTokenSeen && rest != [] && rest[|rest| - 1] == FLAG
      modifies this
      ensures State([FLAG], startTokenSeen) == Closed(old(buffer) + rest).state
      ensures delivered == old(delivered) + Closed(old(buffer) + rest).outputs
    {
      buffer := buffer + rest;
      var complete := RemoveEscapeCharacters();
      if complete {
        startTokenSeen := false;
      }
    }

    method Unstuff(stuffed: seq<byte>) returns (unescaped: seq<byte>, messageInvalid: bool)
      requires stuffed != [] && stuffed[|stuffed| - 1] == FLAG
      ensures Unescaped(stuffed) == Unstuffed(unescaped, messageInvalid)
    {
      messageInvalid := false;
      unescaped := [];
      var it := 0;
      ghost var todo := Unescaped(stuffed);
      assert stuffed[0..] == stuffed;
      while it < |stuffed|
        invariant 0 <= it <= |stuffed|
        invariant todo == Unescaped(stuffed[it..])
        invariant unescaped + todo.bytes == Unescaped(stuffed).bytes
        invariant (messageInvalid || todo.bad) == Unescaped(stuffed).bad
      {
        ghost var before, b := unescaped, todo.bytes[0];
        todo := UnescapedFront(stuffed, it);
        if stuffed[it] == ESCAPE {
          it := it + 1;
          if stuffed[it] == 0x5E {
            unescaped := unescaped + [FLAG];
          } else if stuffed[it] == 0x5D {
            unescaped := unescaped + [ESCAPE];
          } else {
            messageInvalid := true;
            unescaped := unescaped + [stuffed[it]];
          }
        } else {
          unescaped := unescaped + [stuffed[it]];
        }
        it := it + 1;
        assert unescaped == before + [b];
        Regroup(before, b, todo.bytes);
      }
    }

    /** Unstuffs the buffer, checks it, and hands it over unless it is junk. */
    method RemoveEscapeCharacters() returns (complete: bool)
      requires startTokenSeen && |buffer| >= 2 && buffer[0] == FLAG && buffer[|buffer| - 1] == FLAG
      modifies this
      ensures startTokenSeen
      ensures match Judge(old(buffer))
        case Junk => !complete && delivered == old(delivered)
        case Deliver(d) => complete == !d.invalid && delivered == old(delivered) + [d]
    {
      if |buffer| == 2 {
        return false;
      }
      var messageInvalid := false;
      if buffer[|buffer| - 2] == ESCAPE {
        messageInvalid := true;
      } else {
        buffer, messageInvalid := Unstuff(buffer);
      }
      if |buffer| < 6 || |buffer| > MAX_LENGTH {
        return false;
      }
      if !messageInvalid {
        var fcs := Pppfcs16(PPPINITFCS16, buffer[1..|buffer| - 1]);
        messageInvalid := fcs != PPPGOODFCS16;
      }
      var frame := DeserializeFrame(buffer);
      delivered := delivered + [Delivery(buffer, frame, messageInvalid)];
      return !messageInvalid;
    }

    method ControlField(ctrl: byte) returns (frameType: FrameType, appendPayload: bool)
      ensures frameType == FrameTypeOf(ctrl) && appendPayload == ParsesPayload(frameType)
    {
      appendPayload := false;
      if ctrl & 0x01 == 0 {
        frameType := I;
        appendPayload := true;
      } else if ctrl & 0x02 == 0 {
        var kind := (ctrl & 0x0c) >> 2;
        if kind == 0x00 {
          frameType := RR;
        } else if kind == 0x01 {
          frameType := RNR;
        } else if kind == 0x02 {
          frameType := REJ;
        } else {
          frameType := SREJ;
        }
      } else {
        match ((ctrl & 0x0c) >> 2) | ((ctrl & 0xe0) >> 3) {
          case 0x00 =>
            frameType := UI;
            appendPayload := true;
          case 0x01 => frameType := SIM;
          case 0x03 => frameType := SARM;
          case 0x04 => frameType := UP;
          case 0x07 => frameType := SABM;
          case 0x08 => frameType := DISC;
          case 0x0c => frameType := UA;
          case 0x10 => frameType := SNRM;
          case 0x11 =>
            frameType := CMDR;
            appendPayload := true;
          case 0x1c =>
            frameType := TEST;
            appendPayload := true;
          case 0x1d =>
            frameType := XID;
            appendPayload := true;
          case _ => frameType := Unset;
        }
      }
    }

    method DeserializeFrame(unescaped: seq<byte>) returns (frame: HdlcFrame)
      requires |unescaped| >= 6
      ensures frame == Deserialized(unescaped)
    {
      frame := EMPTY_FRAME.(address := unescaped[1]);
      var ctrl := unescaped[2];
      frame := frame.(pf := (ctrl & 0x10) >> 4 != 0);
      var frameType, appendPayload := ControlField(ctrl);
      frame := frame.(frameType := frameType);
      if frame.IsIFrame() {
        frame := frame.(sseq := ((ctrl & 0x0E) >> 1) as nat);
        frame := frame.(rseq := ((ctrl & 0xE0) >> 5) as nat);
      } else if frame.IsSFrame() {
        frame := frame.(rseq := ((ctrl & 0xE0) >> 5) as nat);
      }
      if appendPayload {
        frame := frame.(payload := unescaped[3..3 + (|unescaped| - 6)]);
      }
    }
  }
}
