/** The 16-bit frame check sequence of RFC 1662, appendix C.

  The daemon computes it with a table of 256 entries.  The reference definition
  below feeds single bits, least significant first, through a shift register with
  feedback polynomial 0x8408.  The rest of the module says why the check is worth
  having: which bodies it accepts, and which transmission errors it always catches.
 */
module Fcs16 {
  import opened Lfsr

  type byte = bv8

  const PPPINITFCS16: bv16 := 0xffff
  const PPPGOODFCS16: bv16 := 0xf0b8

  // The table, as 32 rows of eight entries.
  const FCSTAB: seq<seq<bv16>> := [
    [0x0000, 0x1189, 0x2312, 0x329b, 0x4624, 0x57ad, 0x6536, 0x74bf],
    [0x8c48, 0x9dc1, 0xaf5a, 0xbed3, 0xca6c, 0xdbe5, 0xe97e, 0xf8f7],
    [0x1081, 0x0108, 0x3393, 0x221a, 0x56a5, 0x472c, 0x75b7, 0x643e],
    [0x9cc9, 0x8d40, 0xbfdb, 0xae52, 0xdaed, 0xcb64, 0xf9ff, 0xe876],
    [0x2102, 0x308b, 0x0210, 0x1399, 0x6726, 0x76af, 0x4434, 0x55bd],
    [0xad4a, 0xbcc3, 0x8e58, 0x9fd1, 0xeb6e, 0xfae7, 0xc87c, 0xd9f5],
    [0x3183, 0x200a, 0x1291, 0x0318, 0x77a7, 0x662e, 0x54b5, 0x453c],
    [0xbdcb, 0xac42, 0x9ed9, 0x8f50, 0xfbef, 0xea66, 0xd8fd, 0xc974],
    [0x4204, 0x538d, 0x6116, 0x709f, 0x0420, 0x15a9, 0x2732, 0x36bb],
    [0xce4c, 0xdfc5, 0xed5e, 0xfcd7, 0x8868, 0x99e1, 0xab7a, 0xbaf3],
    [0x5285, 0x430c, 0x7197, 0x601e, 0x14a1, 0x0528, 0x37b3, 0x263a],
    [0xdecd, 0xcf44, 0xfddf, 0xec56, 0x98e9, 0x8960, 0xbbfb, 0xaa72],
    [0x6306, 0x728f, 0x4014, 0x519d, 0x2522, 0x34ab, 0x0630, 0x17b9],
    [0xef4e, 0xfec7, 0xcc5c, 0xddd5, 0xa96a, 0xb8e3, 0x8a78, 0x9bf1],
    [0x7387, 0x620e, 0x5095, 0x411c, 0x35a3, 0x242a, 0x16b1, 0x0738],
    [0xffcf, 0xee46, 0xdcdd, 0xcd54, 0xb9eb, 0xa862, 0x9af9, 0x8b70],
    [0x8408, 0x9581, 0xa71a, 0xb693, 0xc22c, 0xd3a5, 0xe13e, 0xf0b7],
    [0x0840, 0x19c9, 0x2b52, 0x3adb, 0x4e64, 0x5fed, 0x6d76, 0x7cff],
    [0x9489, 0x8500, 0xb79b, 0xa612, 0xd2ad, 0xc324, 0xf1bf, 0xe036],
    [0x18c1, 0x0948, 0x3bd3, 0x2a5a, 0x5ee5, 0x4f6c, 0x7df7, 0x6c7e],
    [0xa50a, 0xb483, 0x8618, 0x9791, 0xe32e, 0xf2a7, 0xc03c, 0xd1b5],
    [0x2942, 0x38cb, 0x0a50, 0x1bd9, 0x6f66, 0x7eef, 0x4c74, 0x5dfd],
    [0xb58b, 0xa402, 0x9699, 0x8710, 0xf3af, 0xe226, 0xd0bd, 0xc134],
    [0x39c3, 0x284a, 0x1ad1, 0x0b58, 0x7fe7, 0x6e6e, 0x5cf5, 0x4d7c],
    [0xc60c, 0xd785, 0xe51e, 0xf497, 0x8028, 0x91a1, 0xa33a, 0xb2b3],
    [0x4a44, 0x5bcd, 0x6956, 0x78df, 0x0c60, 0x1de9, 0x2f72, 0x3efb],
    [0xd68d, 0xc704, 0xf59f, 0xe416, 0x90a9, 0x8120, 0xb3bb, 0xa232],
    [0x5ac5, 0x4b4c, 0x79d7, 0x685e, 0x1ce1, 0x0d68, 0x3ff3, 0x2e7a],
    [0xe70e, 0xf687, 0xc41c, 0xd595, 0xa12a, 0xb0a3, 0x8238, 0x93b1],
    [0x6b46, 0x7acf, 0x4854, 0x59dd, 0x2d62, 0x3ceb, 0x0e70, 0x1ff9],
    [0xf78f, 0xe606, 0xd49d, 0xc514, 0xb1ab, 0xa022, 0x92b9, 0x8330],
    [0x7bc7, 0x6a4e, 0x58d5, 0x495c, 0x3de3, 0x2c6a, 0x1ef1, 0x0f78]
  ]

  /** The entry at flat index x of the table. */
  function FcsTab(x: byte): bv16 {
    FCSTAB[(x >> 3) as int][(x & 7) as int]
  }

  // ---------- Reference: a shift register fed one bit at a time ----------

  function ShiftIn(fcs: bv16, bit: bool): bv16 {
    if (fcs & 1 == 1) != bit then (fcs >> 1) ^ 0x8408 else fcs >> 1
  }

  /** The bits of a byte, least significant first. */
  function ByteBits(b: byte): (bits: seq<bool>)
    ensures |bits| == 8
  {
    EightBits(b & 0x01 != 0, b & 0x02 != 0, b & 0x04 != 0, b & 0x08 != 0,
              b & 0x10 != 0, b & 0x20 != 0, b & 0x40 != 0, b & 0x80 != 0)
  }

  /** The bits of a message in the order in which they travel. */
  function Bits(msg: seq<byte>): (bits: seq<bool>)
    ensures |bits| == 8 * |msg|
  {
    if msg == [] then [] else Bits(msg[..|msg| - 1]) + ByteBits(msg[|msg| - 1])
  }

  /** The register after feeding all of msg into fcs. */
  function Crc(fcs: bv16, msg: seq<byte>): bv16 {
    Run(ShiftIn, fcs, Bits(msg))
  }

  /** What the receiver checks (RFC 1662, appendix C.2). */
  predicate Accepts(body: seq<byte>) {
    Crc(PPPINITFCS16, body) == PPPGOODFCS16
  }

  /** The complement of the register, the byte that is transmitted first. */
  function FcsLow(fcs: bv16): byte {
    ((fcs ^ 0xffff) & 0x00ff) as bv8
  }

  function FcsHigh(fcs: bv16): byte {
    (((fcs ^ 0xffff) >> 8) & 0x00ff) as bv8
  }

  lemma CrcSnoc(fcs: bv16, msg: seq<byte>, b: byte)
    ensures Crc(fcs, msg + [b]) == Run(ShiftIn, Crc(fcs, msg), ByteBits(b))
  {
    assert (msg + [b])[..|msg|] == msg;
    RunAppend(ShiftIn, fcs, Bits(msg), ByteBits(b));
  }

  // ---------- The register as sixteen booleans ----------

  /** Proofs look at the register this way: no arithmetic on words is left in them. */
  datatype Reg = Reg(
    b0: bool, b1: bool, b2: bool, b3: bool, b4: bool, b5: bool, b6: bool, b7: bool,
    b8: bool, b9: bool, b10: bool, b11: bool, b12: bool, b13: bool, b14: bool, b15: bool)

  function RegOf(w: bv16): Reg {
    Reg(w & 0x0001 != 0, w & 0x0002 != 0, w & 0x0004 != 0, w & 0x0008 != 0,
        w & 0x0010 != 0, w & 0x0020 != 0, w & 0x0040 != 0, w & 0x0080 != 0,
        w & 0x0100 != 0, w & 0x0200 != 0, w & 0x0400 != 0, w & 0x0800 != 0,
        w & 0x1000 != 0, w & 0x2000 != 0, w & 0x4000 != 0, w & 0x8000 != 0)
  }

  /** One shift: the feedback enters at the top and at the two other taps. */
  function Shift(r: Reg, bit: bool): Reg {
    var f := r.b0 != bit;
    Reg(r.b1, r.b2, r.b3, r.b4 != f, r.b5, r.b6, r.b7, r.b8,
        r.b9, r.b10, r.b11 != f, r.b12, r.b13, r.b14, r.b15, f)
  }

  lemma BitsMovedDown(w: bv16)
    ensures
      var q := w >> 1;
      && (q & 0x0001 != 0) == (w & 0x0002 != 0)
      && (q & 0x0002 != 0) == (w & 0x0004 != 0)
      && (q & 0x0004 != 0) == (w & 0x0008 != 0)
      && (q & 0x0008 != 0) == (w & 0x0010 != 0)
      && (q & 0x0010 != 0) == (w & 0x0020 != 0)
      && (q & 0x0020 != 0) == (w & 0x0040 != 0)
      && (q & 0x0040 != 0) == (w & 0x0080 != 0)
      && (q & 0x0080 != 0) == (w & 0x0100 != 0)
      && (q & 0x0100 != 0) == (w & 0x0200 != 0)
      && (q & 0x0200 != 0) == (w & 0x0400 != 0)
      && (q & 0x0400 != 0) == (w & 0x0800 != 0)
      && (q & 0x0800 != 0) == (w & 0x1000 != 0)
      && (q & 0x1000 != 0) == (w & 0x2000 != 0)
      && (q & 0x2000 != 0) == (w & 0x4000 != 0)
      && (q & 0x4000 != 0) == (w & 0x8000 != 0)
      && (q & 0x8000 != 0) == false
  {
  }

  lemma BitsFedBack(w: bv16)
    ensures
      var q := (w >> 1) ^ 0x8408;
      && (q & 0x0001 != 0) == (w & 0x0002 != 0)
      && (q & 0x0002 != 0) == (w & 0x0004 != 0)
      && (q & 0x0004 != 0) == (w & 0x0008 != 0)
      && (q & 0x0008 != 0) == !(w & 0x0010 != 0)
      && (q & 0x0010 != 0) == (w & 0x0020 != 0)
      && (q & 0x0020 != 0) == (w & 0x0040 != 0)
      && (q & 0x0040 != 0) == (w & 0x0080 != 0)
      && (q & 0x0080 != 0) == (w & 0x0100 != 0)
      && (q & 0x0100 != 0) == (w & 0x0200 != 0)
      && (q & 0x0200 != 0) == (w & 0x0400 != 0)
      && (q & 0x0400 != 0) == !(w & 0x0800 != 0)
      && (q & 0x0800 != 0) == (w & 0x1000 != 0)
      && (q & 0x1000 != 0) == (w & 0x2000 != 0)
      && (q & 0x2000 != 0) == (w & 0x4000 != 0)
      && (q & 0x4000 != 0) == (w & 0x8000 != 0)
      && (q & 0x8000 != 0) == true
  {
  }

  lemma MovedDown(w: bv16)
    ensures var r := RegOf(w);
      RegOf(w >> 1) ==
      Reg(r.b1, r.b2, r.b3, r.b4, r.b5, r.b6, r.b7, r.b8,
          r.b9, r.b10, r.b11, r.b12, r.b13, r.b14, r.b15, false)
  {
    BitsMovedDown(w);
  }

  lemma FedBack(w: bv16)
    ensures var r := RegOf(w);
      RegOf((w >> 1) ^ 0x8408) ==
      Reg(r.b1, r.b2, r.b3, !r.b4, r.b5, r.b6, r.b7, r.b8,
          r.b9, r.b10, !r.b11, r.b12, r.b13, r.b14, r.b15, true)
  {
    BitsFedBack(w);
  }

  lemma LowBit(w: bv16)
    ensures (w & 1 == 1) == (w & 0x0001 != 0)
  {
  }

  lemma ShiftFeedsBack(w: bv16, bit: bool)
    requires (w & 1 == 1) != bit
    ensures RegOf(ShiftIn(w, bit)) == Shift(RegOf(w), bit)
  {
    LowBit(w);
    FedBack(w);
  }

  lemma ShiftMovesDown(w: bv16, bit: bool)
    requires (w & 1 == 1) == bit
    ensures RegOf(ShiftIn(w, bit)) == Shift(RegOf(w), bit)
  {
    LowBit(w);
    MovedDown(w);
  }

  lemma ShiftInIsShift(w: bv16, bit: bool)
    ensures RegOf(ShiftIn(w, bit)) == Shift(RegOf(w), bit)
  {
    if (w & 1 == 1) != bit {
      ShiftFeedsBack(w, bit);
    } else {
      ShiftMovesDown(w, bit);
    }
  }

  lemma RegCarries()
    ensures Carries(ShiftIn, RegOf, Shift)
  {
    forall w, bit ensures RegOf(ShiftIn(w, bit)) == Shift(RegOf(w), bit) {
      ShiftInIsShift(w, bit);
    }
  }

  lemma RegDetermines(v: bv16, w: bv16)
    requires RegOf(v) == RegOf(w)
    ensures v == w
  {
  }

  /** The bit-by-bit run, on booleans. */
  lemma RunOnReg(w: bv16, bits: seq<bool>)
    ensures RegOf(Run(ShiftIn, w, bits)) == Run(Shift, RegOf(w), bits)
  {
    RegCarries();
    RunCarried(ShiftIn, RegOf, Shift, w, bits);
  }

  // ---------- The table agrees with the reference ----------

  /** The table entry for an index with these bits. */
  function TableReg(x0: bool, x1: bool, x2: bool, x3: bool, x4: bool, x5: bool, x6: bool, x7: bool): Reg {
    var y4, y5, y6, y7 := x4 != x0, x5 != x1, x6 != x2, x7 != x3;
    Reg(y4, y5, y6, x0 != y7, x1, x2, x3, y4,
        x0 != y5, x1 != y6, x2 != y7, x3, y4, y5, y6, y7)
  }

  /** t, combined with the high byte of r moved down. */
  function Mixed(r: Reg, t: Reg): Reg {
    Reg(t.b0 != r.b8, t.b1 != r.b9, t.b2 != r.b10, t.b3 != r.b11,
        t.b4 != r.b12, t.b5 != r.b13, t.b6 != r.b14, t.b7 != r.b15,
        t.b8, t.b9, t.b10, t.b11, t.b12, t.b13, t.b14, t.b15)
  }

  /** Four shifts with these feedbacks. */
  function FourShifts(r: Reg, f0: bool, f1: bool, f2: bool, f3: bool): Reg {
    Reg(r.b4 != f0, r.b5 != f1, r.b6 != f2, r.b7 != f3, r.b8, r.b9, r.b10, r.b11 != f0,
        r.b12 != f1, r.b13 != f2, r.b14 != f3, r.b15, f0, f1, f2, f3)
  }

  lemma ShiftsAreFour(r: Reg, p0: bool, p1: bool, p2: bool, p3: bool)
    ensures Shift(Shift(Shift(Shift(r, p0), p1), p2), p3)
         == FourShifts(r, r.b0 != p0, r.b1 != p1, r.b2 != p2, r.b3 != p3)
  {
  }

  lemma FourAndFour(r: Reg, x0: bool, x1: bool, x2: bool, x3: bool, p4: bool, p5: bool, p6: bool, p7: bool)
    ensures var s := FourShifts(r, x0, x1, x2, x3);
      FourShifts(s, s.b0 != p4, s.b1 != p5, s.b2 != p6, s.b3 != p7)
      == Mixed(r, TableReg(x0, x1, x2, x3, r.b4 != p4, r.b5 != p5, r.b6 != p6, r.b7 != p7))
  {
  }

  lemma RunOfFour(r: Reg, p0: bool, p1: bool, p2: bool, p3: bool, rest: seq<bool>)
    ensures Run(Shift, r, [p0] + ([p1] + ([p2] + ([p3] + rest))))
         == Run(Shift, FourShifts(r, r.b0 != p0, r.b1 != p1, r.b2 != p2, r.b3 != p3), rest)
  {
    RunFour(Shift, r, p0, p1, p2, p3, rest);
    ShiftsAreFour(r, p0, p1, p2, p3);
  }

  lemma RunFourTwice(r: Reg, s: Reg, p0: bool, p1: bool, p2: bool, p3: bool, p4: bool, p5: bool, p6: bool, p7: bool)
    requires s == FourShifts(r, r.b0 != p0, r.b1 != p1, r.b2 != p2, r.b3 != p3)
    ensures Run(Shift, r, EightBits(p0, p1, p2, p3, p4, p5, p6, p7))
         == FourShifts(s, s.b0 != p4, s.b1 != p5, s.b2 != p6, s.b3 != p7)
  {
    RunOfFour(r, p0, p1, p2, p3, [p4] + ([p5] + ([p6] + ([p7] + []))));
    RunOfFour(s, p4, p5, p6, p7, []);
  }

  lemma RunOfEight(r: Reg, p0: bool, p1: bool, p2: bool, p3: bool, p4: bool, p5: bool, p6: bool, p7: bool)
    ensures Run(Shift, r, EightBits(p0, p1, p2, p3, p4, p5, p6, p7))
         == Mixed(r, TableReg(r.b0 != p0, r.b1 != p1, r.b2 != p2, r.b3 != p3,
                              r.b4 != p4, r.b5 != p5, r.b6 != p6, r.b7 != p7))
  {
    RunFourTwice(r, FourShifts(r, r.b0 != p0, r.b1 != p1, r.b2 != p2, r.b3 != p3), p0, p1, p2, p3, p4, p5, p6, p7);
    FourAndFour(r, r.b0 != p0, r.b1 != p1, r.b2 != p2, r.b3 != p3, p4, p5, p6, p7);
  }

  // What eight shifts make of the low byte alone, in words.
  function Fold(x: byte): bv16 {
    var y := (x ^ (x << 4)) as bv16;
    (y << 8) ^ (y << 3) ^ (y >> 4)
  }

  lemma TableIsFold(x: byte)
    ensures FcsTab(x) == Fold(x)
  {
  }

  lemma FoldedBits(x: byte)
    ensures
      var y := (x ^ (x << 4)) as bv16;
      var q := (y << 8) ^ (y << 3) ^ (y >> 4);
      && (q & 0x0001 != 0) == ((x & 0x10 != 0) != (x & 0x01 != 0))
      && (q & 0x0002 != 0) == ((x & 0x20 != 0) != (x & 0x02 != 0))
      && (q & 0x0004 != 0) == ((x & 0x40 != 0) != (x & 0x04 != 0))
      && (q & 0x0008 != 0) == (((x & 0x01 != 0) != (x & 0x80 != 0)) != (x & 0x08 != 0))
      && (q & 0x0010 != 0) == (x & 0x02 != 0)
      && (q & 0x0020 != 0) == (x & 0x04 != 0)
      && (q & 0x0040 != 0) == (x & 0x08 != 0)
      && (q & 0x0080 != 0) == ((x & 0x10 != 0) != (x & 0x01 != 0))
      && (q & 0x0100 != 0) == (((x & 0x01 != 0) != (x & 0x20 != 0)) != (x & 0x02 != 0))
      && (q & 0x0200 != 0) == (((x & 0x02 != 0) != (x & 0x40 != 0)) != (x & 0x04 != 0))
      && (q & 0x0400 != 0) == (((x & 0x04 != 0) != (x & 0x80 != 0)) != (x & 0x08 != 0))
      && (q & 0x0800 != 0) == (x & 0x08 != 0)
      && (q & 0x1000 != 0) == ((x & 0x10 != 0) != (x & 0x01 != 0))
      && (q & 0x2000 != 0) == ((x & 0x20 != 0) != (x & 0x02 != 0))
      && (q & 0x4000 != 0) == ((x & 0x40 != 0) != (x & 0x04 != 0))
      && (q & 0x8000 != 0) == ((x & 0x80 != 0) != (x & 0x08 != 0))
  {
  }

  lemma TableBits(x: byte)
    ensures RegOf(FcsTab(x)) ==
      TableReg(x & 0x01 != 0, x & 0x02 != 0, x & 0x04 != 0, x & 0x08 != 0,
               x & 0x10 != 0, x & 0x20 != 0, x & 0x40 != 0, x & 0x80 != 0)
  {
    TableIsFold(x);
    FoldedBits(x);
  }

  lemma IndexBits(w: bv16, b: byte)
    ensures
      var x := ((w ^ b as bv16) & 0xff) as bv8;
      && (x & 0x01 != 0) == ((w & 0x0001 != 0) != (b & 0x01 != 0))
      && (x & 0x02 != 0) == ((w & 0x0002 != 0) != (b & 0x02 != 0))
      && (x & 0x04 != 0) == ((w & 0x0004 != 0) != (b & 0x04 != 0))
      && (x & 0x08 != 0) == ((w & 0x0008 != 0) != (b & 0x08 != 0))
      && (x & 0x10 != 0) == ((w & 0x0010 != 0) != (b & 0x10 != 0))
      && (x & 0x20 != 0) == ((w & 0x0020 != 0) != (b & 0x20 != 0))
      && (x & 0x40 != 0) == ((w & 0x0040 != 0) != (b & 0x40 != 0))
      && (x & 0x80 != 0) == ((w & 0x0080 != 0) != (b & 0x80 != 0))
  {
  }

  lemma MixedBits(w: bv16, t: bv16)
    ensures
      var q := (w >> 8) ^ t;
      && (q & 0x0001 != 0) == ((t & 0x0001 != 0) != (w & 0x0100 != 0))
      && (q & 0x0002 != 0) == ((t & 0x0002 != 0) != (w & 0x0200 != 0))
      && (q & 0x0004 != 0) == ((t & 0x0004 != 0) != (w & 0x0400 != 0))
      && (q & 0x0008 != 0) == ((t & 0x0008 != 0) != (w & 0x0800 != 0))
      && (q & 0x0010 != 0) == ((t & 0x0010 != 0) != (w & 0x1000 != 0))
      && (q & 0x0020 != 0) == ((t & 0x0020 != 0) != (w & 0x2000 != 0))
      && (q & 0x0040 != 0) == ((t & 0x0040 != 0) != (w & 0x4000 != 0))
      && (q & 0x0080 != 0) == ((t & 0x0080 != 0) != (w & 0x8000 != 0))
      && (q & 0x0100 != 0) == (t & 0x0100 != 0)
      && (q & 0x0200 != 0) == (t & 0x0200 != 0)
      && (q & 0x0400 != 0) == (t & 0x0400 != 0)
      && (q & 0x0800 != 0) == (t & 0x0800 != 0)
      && (q & 0x1000 != 0) == (t & 0x1000 != 0)
      && (q & 0x2000 != 0) == (t & 0x2000 != 0)
      && (q & 0x4000 != 0) == (t & 0x4000 != 0)
      && (q & 0x8000 != 0) == (t & 0x8000 != 0)
  {
  }

  lemma MixedWord(w: bv16, t: bv16)
    ensures RegOf((w >> 8) ^ t) ==
      Reg((t & 0x0001 != 0) != (w & 0x0100 != 0), (t & 0x0002 != 0) != (w & 0x0200 != 0),
          (t & 0x0004 != 0) != (w & 0x0400 != 0), (t & 0x0008 != 0) != (w & 0x0800 != 0),
          (t & 0x0010 != 0) != (w & 0x1000 != 0), (t & 0x0020 != 0) != (w & 0x2000 != 0),
          (t & 0x0040 != 0) != (w & 0x4000 != 0), (t & 0x0080 != 0) != (w & 0x8000 != 0),
          t & 0x0100 != 0, t & 0x0200 != 0, t & 0x0400 != 0, t & 0x0800 != 0,
          t & 0x1000 != 0, t & 0x2000 != 0, t & 0x4000 != 0, t & 0x8000 != 0)
  {
    MixedBits(w, t);
  }

  lemma MixedInline(w: bv16, t: bv16)
    ensures Mixed(RegOf(w), RegOf(t)) ==
      Reg((t & 0x0001 != 0) != (w & 0x0100 != 0), (t & 0x0002 != 0) != (w & 0x0200 != 0),
          (t & 0x0004 != 0) != (w & 0x0400 != 0), (t & 0x0008 != 0) != (w & 0x0800 != 0),
          (t & 0x0010 != 0) != (w & 0x1000 != 0), (t & 0x0020 != 0) != (w & 0x2000 != 0),
          (t & 0x0040 != 0) != (w & 0x4000 != 0), (t & 0x0080 != 0) != (w & 0x8000 != 0),
          t & 0x0100 != 0, t & 0x0200 != 0, t & 0x0400 != 0, t & 0x0800 != 0,
          t & 0x1000 != 0, t & 0x2000 != 0, t & 0x4000 != 0, t & 0x8000 != 0)
  {
  }

  /** Equal on booleans, so equal. */
  lemma SameByBits(w: bv16, t: bv16, h: bv16, s: bv16, p0: bool, p1: bool, p2: bool, p3: bool, p4: bool, p5: bool, p6: bool, p7: bool)
    requires RegOf(h) == Mixed(RegOf(w), RegOf(t)) && s == Run(ShiftIn, w, EightBits(p0, p1, p2, p3, p4, p5, p6, p7))
    requires var r := RegOf(w);
      RegOf(t) == TableReg(r.b0 != p0, r.b1 != p1, r.b2 != p2, r.b3 != p3,
                           r.b4 != p4, r.b5 != p5, r.b6 != p6, r.b7 != p7)
    ensures h == s
  {
    RunOnReg(w, EightBits(p0, p1, p2, p3, p4, p5, p6, p7));
    RunOfEight(RegOf(w), p0, p1, p2, p3, p4, p5, p6, p7);
    RegDetermines(h, s);
  }

  lemma MixedIs(w: bv16, t: bv16)
    ensures RegOf((w >> 8) ^ t) == Mixed(RegOf(w), RegOf(t))
  {
    MixedWord(w, t);
    MixedInline(w, t);
  }

  lemma RunOfByte(w: bv16, b: byte, t: bv16, h: bv16)
    requires RegOf(h) == Mixed(RegOf(w), RegOf(t))
    requires var r := RegOf(w);
      RegOf(t) ==
        TableReg(r.b0 != (b & 0x01 != 0), r.b1 != (b & 0x02 != 0), r.b2 != (b & 0x04 != 0), r.b3 != (b & 0x08 != 0),
                 r.b4 != (b & 0x10 != 0), r.b5 != (b & 0x20 != 0), r.b6 != (b & 0x40 != 0), r.b7 != (b & 0x80 != 0))
    ensures h == Run(ShiftIn, w, ByteBits(b))
  {
    SameByBits(w, t, h, Run(ShiftIn, w, ByteBits(b)),
               b & 0x01 != 0, b & 0x02 != 0, b & 0x04 != 0, b & 0x08 != 0, b & 0x10 != 0, b & 0x20 != 0, b & 0x40 != 0, b & 0x80 != 0);
  }

  lemma StepWithEntry(w: bv16, b: byte, t: bv16)
    requires var r := RegOf(w);
      RegOf(t) ==
        TableReg(r.b0 != (b & 0x01 != 0), r.b1 != (b & 0x02 != 0), r.b2 != (b & 0x04 != 0), r.b3 != (b & 0x08 != 0),
                 r.b4 != (b & 0x10 != 0), r.b5 != (b & 0x20 != 0), r.b6 != (b & 0x40 != 0), r.b7 != (b & 0x80 != 0))
    ensures (w >> 8) ^ t == Run(ShiftIn, w, ByteBits(b))
  {
    MixedIs(w, t);
    RunOfByte(w, b, t, (w >> 8) ^ t);
  }

  lemma StepWithIndex(w: bv16, b: byte, x: byte)
    requires
      && (x & 0x01 != 0) == ((w & 0x0001 != 0) != (b & 0x01 != 0))
      && (x & 0x02 != 0) == ((w & 0x0002 != 0) != (b & 0x02 != 0))
      && (x & 0x04 != 0) == ((w & 0x0004 != 0) != (b & 0x04 != 0))
      && (x & 0x08 != 0) == ((w & 0x0008 != 0) != (b & 0x08 != 0))
      && (x & 0x10 != 0) == ((w & 0x0010 != 0) != (b & 0x10 != 0))
      && (x & 0x20 != 0) == ((w & 0x0020 != 0) != (b & 0x20 != 0))
      && (x & 0x40 != 0) == ((w & 0x0040 != 0) != (b & 0x40 != 0))
      && (x & 0x80 != 0) == ((w & 0x0080 != 0) != (b & 0x80 != 0))
    ensures (w >> 8) ^ FcsTab(x) == Run(ShiftIn, w, ByteBits(b))
  {
    TableBits(x);
    StepWithEntry(w, b, FcsTab(x));
  }

  /** One step by the table is eight steps bit by bit. */
  lemma TableStep(fcs: bv16, b: byte)
    ensures (fcs >> 8) ^ FcsTab(((fcs ^ b as bv16) & 0xff) as bv8) == Run(ShiftIn, fcs, ByteBits(b))
  {
    IndexBits(fcs, b);
    StepWithIndex(fcs, b, ((fcs ^ b as bv16) & 0xff) as bv8);
  }

  method NextFcs(fcs: bv16, b: byte) returns (next: bv16)
    ensures next == Run(ShiftIn, fcs, ByteBits(b))
  {
    next := (fcs >> 8) ^ FcsTab(((fcs ^ b as bv16) & 0xff) as bv8);
    TableStep(fcs, b);
  }

  /** The table-driven loop computes the bit-by-bit CRC of every message. */
  method Pppfcs16(init: bv16, cp: seq<byte>) returns (fcs: bv16)
    ensures fcs == Crc(init, cp)
  {
    fcs := init;
    var i := 0;
    while i < |cp|
      invariant 0 <= i <= |cp|
      invariant fcs == Crc(init, cp[..i])
    {
      CrcSnoc(init, cp[..i], cp[i]);
      assert cp[..i + 1] == cp[..i] + [cp[i]];
      fcs := NextFcs(fcs, cp[i]);
      i := i + 1;
    }
    assert cp[..i] == cp;
  }

  // ---------- Errors that are always caught ----------

  lemma ShiftLossless()
    ensures Lossless(Shift)
  {
    forall f, g, p | Shift(f, p) == Shift(g, p) ensures f == g {
      ShiftInjective(f, g, p);
    }
  }

  lemma ShiftInjective(f: Reg, g: Reg, p: bool)
    requires Shift(f, p) == Shift(g, p)
    ensures f == g
  {
  }

  /** The 16 - n top bits agree. */
  predicate TopAgrees(n: nat, f: Reg, g: Reg) {
    && (n <= 0 ==> f.b0 == g.b0) && (n <= 1 ==> f.b1 == g.b1) && (n <= 2 ==> f.b2 == g.b2) && (n <= 3 ==> f.b3 == g.b3)
    && (n <= 4 ==> f.b4 == g.b4) && (n <= 5 ==> f.b5 == g.b5) && (n <= 6 ==> f.b6 == g.b6) && (n <= 7 ==> f.b7 == g.b7)
    && (n <= 8 ==> f.b8 == g.b8) && (n <= 9 ==> f.b9 == g.b9) && (n <= 10 ==> f.b10 == g.b10) && (n <= 11 ==> f.b11 == g.b11)
    && (n <= 12 ==> f.b12 == g.b12) && (n <= 13 ==> f.b13 == g.b13) && (n <= 14 ==> f.b14 == g.b14) && (n <= 15 ==> f.b15 == g.b15)
  }

  lemma ShiftBack(n: nat, f: Reg, p: bool, g: Reg, q: bool)
    requires n < 16 && TopAgrees(n, Shift(f, p), Shift(g, q))
    ensures TopAgrees(n + 1, f, g)
    ensures f == g ==> p == q
  {
  }

  lemma ShiftTraceable()
    ensures Traceable(Shift, TopAgrees, 16)
  {
    forall n: nat, f, p, g, q | n < 16 && TopAgrees(n, Shift(f, p), Shift(g, q))
      ensures TopAgrees(n + 1, f, g) && (f == g ==> p == q)
    {
      ShiftBack(n, f, p, g, q);
    }
  }

  lemma ByteBitsInjective(a: byte, b: byte)
    requires ByteBits(a) == ByteBits(b)
    ensures a == b
  {
    var p, q := ByteBits(a), ByteBits(b);
    assert p[0] == q[0] && p[1] == q[1] && p[2] == q[2] && p[3] == q[3];
    assert p[4] == q[4] && p[5] == q[5] && p[6] == q[6] && p[7] == q[7];
    EightBitsDecide(a, b);
  }

  lemma EightBitsDecide(a: byte, b: byte)
    requires (a & 0x01 != 0) == (b & 0x01 != 0) && (a & 0x02 != 0) == (b & 0x02 != 0)
    requires (a & 0x04 != 0) == (b & 0x04 != 0) && (a & 0x08 != 0) == (b & 0x08 != 0)
    requires (a & 0x10 != 0) == (b & 0x10 != 0) && (a & 0x20 != 0) == (b & 0x20 != 0)
    requires (a & 0x40 != 0) == (b & 0x40 != 0) && (a & 0x80 != 0) == (b & 0x80 != 0)
    ensures a == b
  {
  }

  lemma BitsSplit(msg: seq<byte>)
    requires msg != []
    ensures var n := |msg| - 1;
      Bits(msg)[..8 * n] == Bits(msg[..n]) && Bits(msg)[8 * n..] == ByteBits(msg[n])
  {
  }

  lemma {:induction false} BitsInjective(a: seq<byte>, b: seq<byte>)
    requires |a| == |b| && Bits(a) == Bits(b)
    ensures a == b
  {
    if a != [] {
      var n := |a| - 1;
      BitsSplit(a);
      BitsSplit(b);
      BitsInjective(a[..n], b[..n]);
      ByteBitsInjective(a[n], b[n]);
      assert a == a[..n] + [a[n]] && b == b[..n] + [b[n]];
    }
  }

  /** A burst of at most 16 wrong bits, anywhere in a body of any length, is caught. */
  lemma BurstDetected(good: seq<byte>, bad: seq<byte>, at: nat, len: nat)
    requires |good| == |bad| && at + len <= 8 * |good| && len <= 16
    requires Bits(good)[..at] == Bits(bad)[..at] && Bits(good)[at + len..] == Bits(bad)[at + len..]
    requires good != bad
    requires Accepts(good)
    ensures !Accepts(bad)
  {
    if Accepts(bad) {
      RunOnReg(PPPINITFCS16, Bits(good));
      RunOnReg(PPPINITFCS16, Bits(bad));
      ShiftLossless();
      ShiftTraceable();
      BurstVisible(Shift, TopAgrees, 16, RegOf(PPPINITFCS16), Bits(good), Bits(bad), at, len);
      BitsInjective(good, bad);
    }
  }

  /** The register holds an odd number of ones. */
  predicate Odd(r: Reg) {
    var low := (r.b1 != r.b2) != r.b3;
    var mid := (((((r.b4 != r.b5) != r.b6) != r.b7) != r.b8) != r.b9) != r.b10;
    var high := (((r.b11 != r.b12) != r.b13) != r.b14) != r.b15;
    r.b0 != (low != (mid != high))
  }

  lemma ShiftParity(r: Reg, bit: bool)
    ensures Odd(Shift(r, bit)) == (Odd(r) != bit)
  {
    if r.b0 != bit {
      assert Shift(r, bit).b15;
    } else {
      assert !Shift(r, bit).b15;
    }
  }

  /** Every accepted body has an even number of one bits, so any odd number of
      flipped bits, wherever they are and however many, is caught. */
  lemma AcceptedBodyIsEven(body: seq<byte>)
    requires Accepts(body)
    ensures Ones(Bits(body)) % 2 == 0
  {
    forall f, p
      ensures Odd(Shift(f, p)) == (Odd(f) != p)
    {
      ShiftParity(f, p);
    }
    RunOnReg(PPPINITFCS16, Bits(body));
    RunParity(Shift, Odd, RegOf(PPPINITFCS16), Bits(body));
    assert !Odd(RegOf(PPPINITFCS16)) && !Odd(RegOf(PPPGOODFCS16));
  }

  // ---------- Which bodies are accepted ----------

  // The complement of a register makes the table index a constant, twice.
  lemma FirstIndex(r: bv16)
    ensures ((r ^ (((r ^ 0xffff) & 0x00ff) as bv8) as bv16) & 0xff) as bv8 == 0xff
  {
  }

  lemma SecondIndex(r: bv16)
    ensures
      var q := (r >> 8) ^ 0x0f78;
      && ((q ^ ((((r ^ 0xffff) >> 8) & 0x00ff) as bv8) as bv16) & 0xff) as bv8 == 0x87
      && q >> 8 == 0x0f
  {
  }

  lemma ResidueOfFcs(r: bv16)
    ensures Run(ShiftIn, Run(ShiftIn, r, ByteBits(FcsLow(r))), ByteBits(FcsHigh(r))) == PPPGOODFCS16
  {
    TableStep(r, FcsLow(r));
    FirstIndex(r);
    assert FcsTab(0xff) == 0x0f78 && FcsTab(0x87) == 0xf0b7;
    TableStep((r >> 8) ^ 0x0f78, FcsHigh(r));
    SecondIndex(r);
  }

  /** Whatever the message, exactly one pair of trailing bytes makes the receiver
      accept, and it is the pair the sender appends, low byte first. */
  lemma AcceptsIffFcs(msg: seq<byte>, lo: byte, hi: byte)
    ensures var r := Crc(PPPINITFCS16, msg);
      Accepts(msg + [lo, hi]) <==> lo == FcsLow(r) && hi == FcsHigh(r)
  {
    var r := Crc(PPPINITFCS16, msg);
    CrcOfTwoMore(msg, lo, hi);
    ResidueOfFcs(r);
    if Accepts(msg + [lo, hi]) {
      TwoBytesInjective(r, lo, hi, FcsLow(r), FcsHigh(r));
    }
  }

  lemma CrcOfTwoMore(msg: seq<byte>, lo: byte, hi: byte)
    ensures Crc(PPPINITFCS16, msg + [lo, hi])
         == Run(ShiftIn, Run(ShiftIn, Crc(PPPINITFCS16, msg), ByteBits(lo)), ByteBits(hi))
  {
    assert msg + [lo, hi] == msg + [lo] + [hi];
    CrcSnoc(PPPINITFCS16, msg, lo);
    CrcSnoc(PPPINITFCS16, msg + [lo], hi);
  }

  lemma TwoBytesInjective(r: bv16, lo: byte, hi: byte, lo': byte, hi': byte)
    requires Run(ShiftIn, Run(ShiftIn, r, ByteBits(lo)), ByteBits(hi))
          == Run(ShiftIn, Run(ShiftIn, r, ByteBits(lo')), ByteBits(hi'))
    ensures lo == lo' && hi == hi'
  {
    var p, q := ByteBits(lo), ByteBits(hi);
    var p', q' := ByteBits(lo'), ByteBits(hi');
    RunAppend(ShiftIn, r, p, q);
    RunAppend(ShiftIn, r, p', q');
    RunOnReg(r, p + q);
    RunOnReg(r, p' + q');
    ShiftTraceable();
    RunTraced(Shift, TopAgrees, 16, RegOf(r), p + q, RegOf(r), p' + q');
    assert p == (p + q)[..8] == (p' + q')[..8] == p';
    assert q == (p + q)[8..] == (p' + q')[8..] == q';
    ByteBitsInjective(lo, lo');
    ByteBitsInjective(hi, hi');
  }

  // ---------- The start value ----------

  lemma {:induction false} BitsAppend(a: seq<byte>, b: seq<byte>)
    ensures Bits(a + b) == Bits(a) + Bits(b)
    decreases |b|
  {
    if b == [] {
      assert a + b == a;
    } else {
      var n := |b| - 1;
      assert (a + b)[..|a| + n] == a + b[..n] && (a + b)[|a| + n] == b[n];
      BitsAppend(a, b[..n]);
    }
  }

  lemma CrcAppend(fcs: bv16, a: seq<byte>, b: seq<byte>)
    ensures Crc(fcs, a + b) == Crc(Crc(fcs, a), b)
  {
    BitsAppend(a, b);
    RunAppend(ShiftIn, fcs, Bits(a), Bits(b));
  }

  /** No message brings two registers together. */
  lemma CrcInjective(v: bv16, w: bv16, msg: seq<byte>)
    requires Crc(v, msg) == Crc(w, msg)
    ensures v == w
  {
    RunOnReg(v, Bits(msg));
    RunOnReg(w, Bits(msg));
    ShiftLossless();
    RunInjective(Shift, RegOf(v), RegOf(w), Bits(msg));
    RegDetermines(v, w);
  }

  function Zeros(n: nat): seq<byte> {
    if n == 0 then [] else Zeros(n - 1) + [0]
  }

  const ONES: Reg := Reg(true, true, true, true, true, true, true, true, true, true, true, true, true, true, true, true)

  /** The register after that many zero octets, from all ones. */
  function ZerosReg(n: nat): Reg {
    if n == 0 then ONES else ZeroFed(ZerosReg(n - 1))
  }

  function ZeroFed(r: Reg): Reg {
    Mixed(r, TableReg(r.b0, r.b1, r.b2, r.b3, r.b4, r.b5, r.b6, r.b7))
  }

  lemma ZeroBits()
    ensures ByteBits(0) == EightBits(false, false, false, false, false, false, false, false)
  {
  }

  lemma ZeroFedIsRun(r: Reg)
    ensures Run(Shift, r, ByteBits(0)) == ZeroFed(r)
  {
    ZeroBits();
    RunOfEight(r, false, false, false, false, false, false, false, false);
  }

  lemma OneMoreZero(fcs: bv16, n: nat)
    ensures RegOf(Crc(fcs, Zeros(n + 1))) == ZeroFed(RegOf(Crc(fcs, Zeros(n))))
  {
    CrcSnoc(fcs, Zeros(n), 0);
    RunOnReg(Crc(fcs, Zeros(n)), ByteBits(0));
    ZeroFedIsRun(RegOf(Crc(fcs, Zeros(n))));
  }

  lemma StartsWithOnes(w: bv16)
    ensures RegOf(w) == ONES <==> w == 0xffff
  {
    if RegOf(w) == ONES {
      RegDetermines(w, 0xffff);
    }
  }

  lemma {:induction false} ZerosOnReg(n: nat)
    ensures RegOf(Crc(PPPINITFCS16, Zeros(n))) == ZerosReg(n)
  {
    if n == 0 {
      StartsWithOnes(PPPINITFCS16);
    } else {
      ZerosOnReg(n - 1);
      OneMoreZero(PPPINITFCS16, n - 1);
    }
  }

  lemma ZerosReturn(n: nat)
    ensures Crc(PPPINITFCS16, Zeros(n)) == PPPINITFCS16 <==> ZerosReg(n) == ONES
  {
    ZerosOnReg(n);
    StartsWithOnes(Crc(PPPINITFCS16, Zeros(n)));
  }

  /** What the start value is for: an accepted body with zero octets put in front is
      accepted if and only if they lead the register back to all ones. */
  lemma ZerosInFront(n: nat, body: seq<byte>)
    requires Accepts(body)
    ensures Accepts(Zeros(n) + body) <==> ZerosReg(n) == ONES
  {
    CrcAppend(PPPINITFCS16, Zeros(n), body);
    ZerosReturn(n);
    if Accepts(Zeros(n) + body) {
      CrcInjective(Crc(PPPINITFCS16, Zeros(n)), PPPINITFCS16, body);
    }
  }

  lemma FewZeros(n: nat)
    requires 1 <= n <= 4
    ensures ZerosReg(n) != ONES
  {
    var r1 := ZeroFed(ONES);
    var r2 := ZeroFed(r1);
    var r3 := ZeroFed(r2);
    assert ZerosReg(0) == ONES && ZerosReg(1) == r1 && ZerosReg(2) == r2 && ZerosReg(3) == r3 && ZerosReg(4) == ZeroFed(r3);
    assert !r1.b3 && !r2.b0 && !r3.b2 && !ZeroFed(r3).b1;
  }

  /** So up to four of them, a whole header, never pass. */
  lemma FewZerosDetected(n: nat, body: seq<byte>)
    requires 1 <= n <= 4 && Accepts(body)
    ensures !Accepts(Zeros(n) + body)
  {
    FewZeros(n);
    ZerosInFront(n, body);
  }
}
