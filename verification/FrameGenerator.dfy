/** From a frame to the bytes on the serial line. */
module FrameGenerator {
  import opened Fcs16
  import opened HdlcFrames

  /** The frame types the generator has a control code for; it asserts on the others. */
  predicate HasControlCode(t: FrameType) {
    t in {I, RR, RNR, REJ, SREJ, UI, SABM, DISC, UA, CMDR, TEST}
  }

  /** The frames the generator accepts. */
  type Printable = f: HdlcFrame | HasControlCode(f.frameType) witness EMPTY_FRAME.(frameType := UI)

  predicate CarriesPayload(t: FrameType) {
    t == I || t == UI
  }

  function ControlField(f: Printable): byte
  {
    var r := ((f.rseq % 8) as bv8) << 5;
    var code: byte :=
      match f.frameType
      case I => (((f.sseq % 8) as bv8) << 1) | r
      case RR => 0x01 | r
      case RNR => 0x05 | r
      case REJ => 0x09 | r
      case SREJ => 0x0d | r
      case UI => 0x03
      case SABM => 0x2F
      case DISC => 0x43
      case UA => 0x63
      case CMDR => 0x83
      case TEST => 0xE3;
    if f.pf then code | 0x10 else code
  }

  /** Address, control field and payload: the bytes the FCS is computed over. */
  function Covered(f: Printable): seq<byte>
  {
    [f.address, ControlField(f)] + (if CarriesPayload(f.frameType) then f.payload else [])
  }

  function WithFcs(msg: seq<byte>): seq<byte> {
    var r := Crc(PPPINITFCS16, msg);
    msg + [FcsLow(r), FcsHigh(r)]
  }

  lemma WithFcsAccepted(msg: seq<byte>)
    ensures Accepts(WithFcs(msg))
  {
    var r := Crc(PPPINITFCS16, msg);
    AcceptsIffFcs(msg, FcsLow(r), FcsHigh(r));
  }

  /** Address through FCS. */
  function Body(f: Printable): seq<byte>
  {
    WithFcs(Covered(f))
  }

  function Delimited(body: seq<byte>): seq<byte> {
    [FLAG] + body + [FLAG]
  }

  function EscapedByte(b: byte): seq<byte> {
    if b == ESCAPE then [ESCAPE, 0x5D] else if b == FLAG then [ESCAPE, 0x5E] else [b]
  }

  function Escaped(s: seq<byte>): seq<byte> {
    if s == [] then [] else EscapedByte(s[0]) + Escaped(s[1..])
  }

  /** What is written to the serial line for a frame. */
  function Encoded(f: Printable): seq<byte>
  {
    Delimited(Escaped(Body(f)))
  }

  lemma FcsWords(fcs: bv16)
    ensures FcsLow(fcs) == ((fcs ^ 0xffff) & 0x00ff) as bv8
    ensures FcsHigh(fcs) == (((fcs ^ 0xffff) >> 8) & 0x00ff) as bv8
  {
  }

  method ApplyFCS(frame: seq<byte>) returns (frame': seq<byte>)
    requires frame != []
    ensures frame' == frame[..1] + WithFcs(frame[1..])
  {
    var trialfcs := Pppfcs16(PPPINITFCS16, frame[1..]);
    FcsWords(trialfcs);
    trialfcs := trialfcs ^ 0xffff;
    frame' := frame + [(trialfcs & 0x00ff) as bv8];
    frame' := frame' + [((trialfcs >> 8) & 0x00ff) as bv8];
  }

  method SerializeFrame(f: Printable) returns (buffer: seq<byte>)
    ensures buffer == Delimited(Body(f))
  {
    var control: byte := 0;
    var appendPayload := false;
    match f.frameType {
      case I =>
        control := (((f.sseq % 8) as bv8) << 1) | (((f.rseq % 8) as bv8) << 5);
        appendPayload := true;
      case RR => control := 0x01 | (((f.rseq % 8) as bv8) << 5);
      case RNR => control := 0x05 | (((f.rseq % 8) as bv8) << 5);
      case REJ => control := 0x09 | (((f.rseq % 8) as bv8) << 5);
      case SREJ => control := 0x0d | (((f.rseq % 8) as bv8) << 5);
      case UI =>
        control := 0x03;
        appendPayload := true;
      case SABM => control := 0x2F;
      case DISC => control := 0x43;
      case UA => control := 0x63;
      case CMDR => control := 0x83;
      case TEST => control := 0xE3;
    }
    buffer := [FLAG];
    buffer := buffer + [f.address];
    if f.pf {
      control := control | 0x10;
    }
    buffer := buffer + [control];
    if appendPayload {
      buffer := buffer + f.payload;
    }
    assert buffer == [FLAG] + Covered(f);
    buffer := ApplyFCS(buffer);
    buffer := buffer + [FLAG];
  }

  /** How many bytes have to be escaped. */
  function ToEscape(s: seq<byte>): nat {
    if s == [] then 0 else (if s[0] == ESCAPE || s[0] == FLAG then 1 else 0) + ToEscape(s[1..])
  }

  lemma {:induction false} EscapedLength(s: seq<byte>)
    ensures |Escaped(s)| == |s| + ToEscape(s) <= 2 * |s|
  {
    if s != [] {
      EscapedLength(s[1..]);
    }
  }

  lemma EscapedStep(done: seq<byte>, s: seq<byte>)
    requires s != []
    ensures done + EscapedByte(s[0]) + Escaped(s[1..]) == done + Escaped(s)
  {
  }

  /** Byte stuffing between the two delimiters.  The reserved capacity is exact. */
  method EscapeFrame(frame: seq<byte>) returns (escaped: seq<byte>, capacity: nat)
    requires |frame| >= 2
    ensures escaped == Delimited(Escaped(frame[1..|frame| - 1]))
    ensures capacity == |escaped|
  {
    var end := |frame| - 1;
    ghost var body := frame[1..end];
    var toEscape := 0;
    var index := 1;
    while index < end
      invariant 1 <= index <= end
      invariant toEscape + ToEscape(frame[index..end]) == ToEscape(body)
    {
      assert frame[index..end][1..] == frame[index + 1..end];
      if frame[index] == ESCAPE || frame[index] == FLAG {
        toEscape := toEscape + 1;
      }
      index := index + 1;
    }
    capacity := |frame| + toEscape;
    EscapedLength(body);
    escaped := [FLAG];
    var it := 1;
    while it < end
      invariant 1 <= it <= end
      invariant escaped + Escaped(frame[it..end]) == [FLAG] + Escaped(body)
    {
      ghost var done, todo := escaped, frame[it..end];
      EscapedStep(done, todo);
      assert todo[1..] == frame[it + 1..end];
      if frame[it] == ESCAPE {
        escaped := escaped + [ESCAPE];
        escaped := escaped + [0x5D];
      } else if frame[it] == FLAG {
        escaped := escaped + [ESCAPE];
        escaped := escaped + [0x5E];
      } else {
        escaped := escaped + [frame[it]];
      }
      assert escaped == done + EscapedByte(todo[0]);
      it := it + 1;
    }
    escaped := escaped + [FLAG];
  }
}
