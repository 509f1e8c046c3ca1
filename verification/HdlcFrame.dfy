/** HDLC frames as values: what the generator is given and the parser hands out. */
module HdlcFrames {
  import opened Fcs16

  // An unsigned char used as a small number.
  type uint8 = n: nat | n < 256

  datatype FrameType =
    | Unset
    | I
    | RR | RNR | REJ | SREJ
    | UI | SIM | SARM | UP | SABM | DISC | UA | SNRM | CMDR | TEST | XID
  {
    predicate IsS() {
      this in {RR, RNR, REJ, SREJ}
    }
  }

  datatype HdlcFrame = HdlcFrame(
    address: byte, frameType: FrameType, pf: bool, rseq: uint8, sseq: uint8, payload: seq<byte>)
  {
    predicate IsEmpty() {
      frameType == Unset
    }

    predicate IsIFrame() {
      frameType == I
    }

    predicate IsSFrame() {
      frameType.IsS()
    }

    predicate HasPayload() {
      payload != []
    }
  }

  /** A freshly constructed frame. */
  const EMPTY_FRAME := HdlcFrame(0, Unset, false, 0, 0, [])

  const FLAG: byte := 0x7E
  const ESCAPE: byte := 0x7D
}
