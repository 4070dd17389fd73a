/**
  The HT1621 three-wire serial protocol as a trace of line events. A bit is
  one pulse of the write strobe (WR low, data line set, WR high; the chip
  latches on the rising edge), and a frame is a run of bits between chip
  select going low and going high again. The module gives the frames the
  driver sends, and decoders that read bits, bytes and frames back out of a
  trace, with the lemmas that the decoders undo the encoders.
 */
module HT1621Wire {
  import opened HT1621Defs

  datatype Option<T> = None | Some(value: T)

  /** One change of a physical line, in the order the driver makes it. */
  datatype Event = CsLow | CsHigh | WrLow | WrHigh | Data(high: bool)

  /** Bit `k` of `x`, counting from the least significant bit. */
  function TestBit(x: bv8, k: nat): bool
    requires k < 8
  {
    (x >> k) & 1 == 1
  }

  /**
    The first `cnt` bits of `x`, most significant first. The driver shifts a
    byte register, so once its eight bits are out only zeros follow.
   */
  function MsbBits(x: bv8, cnt: nat): seq<bool>
  {
    seq(cnt, i => 0 <= i < 8 && TestBit(x, 7 - i))
  }

  /** The line events that clock out `bs`: for each bit WR low, data, WR high. */
  function Clocked(bs: seq<bool>): seq<Event>
  {
    if bs == [] then [] else [WrLow, Data(bs[0]), WrHigh] + Clocked(bs[1..])
  }

  /** Chip select low, the bits, chip select high. */
  function Framed(bs: seq<bool>): seq<Event>
  {
    [CsLow] + Clocked(bs) + [CsHigh]
  }

  /** The concatenation of one frame per element of `fs`. */
  function Frames(fs: seq<seq<bool>>): seq<Event>
  {
    if fs == [] then [] else Framed(fs[0]) + Frames(fs[1..])
  }

  /** Bits of a command frame: the command tag, the command byte, one ignored ninth bit. */
  function CommandPayload(cmd: bv8): seq<bool>
  {
    MsbBits(MODE_CMD, 3) + MsbBits(cmd, 8) + MsbBits(0, 1)
  }

  function CommandFrame(cmd: bv8): seq<Event>
  {
    Framed(CommandPayload(cmd))
  }

  /**
    Bits of a data-write frame: the mode tag, six address bits and the data
    byte. The address goes out as the byte `adr << 2` (truncated to 8 bits)
    of which the top six bits are sent.
   */
  function WritePayload(adr: bv8, data: bv8, mode: bv8): seq<bool>
  {
    MsbBits(mode, 3) + MsbBits(adr << 2, 6) + MsbBits(data, 8)
  }

  function WriteFrame(adr: bv8, data: bv8, mode: bv8): seq<Event>
  {
    Framed(WritePayload(adr, data, mode))
  }

  function CommandPayloads(cs: seq<bv8>): seq<seq<bool>>
  {
    if cs == [] then [] else [CommandPayload(cs[0])] + CommandPayloads(cs[1..])
  }

  /** One command frame per element of `cs`, in order. */
  function CommandTrace(cs: seq<bv8>): seq<Event>
  {
    if cs == [] then [] else CommandFrame(cs[0]) + CommandTrace(cs[1..])
  }

  /** One more command in front adds its frame in front. */
  lemma CommandTraceCons(c: bv8, cs: seq<bv8>)
    ensures CommandTrace([c] + cs) == CommandFrame(c) + CommandTrace(cs)
  {
    assert ([c] + cs)[1..] == cs;
  }

  // ---------------------------------------------------------------------
  // Decoders

  /** The value of the bits `bs` read most significant first, kept to its low 8 bits. */
  function FromMsb(bs: seq<bool>): bv8
  {
    if bs == [] then 0 else ShiftIn(FromMsb(bs[..|bs| - 1]), bs[|bs| - 1])
  }

  /** The register `y` shifted left by one with `b` brought in at the low end. */
  function ShiftIn(y: bv8, b: bool): bv8
  {
    (y << 1) | (if b then 1 else 0)
  }

  /**
    Reads the run of complete clock pulses at the head of `t`; returns the
    latched data values and the rest of the trace.
   */
  function ReadClocked(t: seq<Event>): (r: (seq<bool>, seq<Event>))
    ensures |r.1| <= |t|
    ensures |r.1| == |t| <==> r.0 == []
  {
    if |t| >= 3 && t[0] == WrLow && t[1].Data? && t[2] == WrHigh then
      var (bs, rest) := ReadClocked(t[3..]);
      ([t[1].high] + bs, rest)
    else
      ([], t)
  }

  /** Splits a trace into the bits of its frames; None if it is not a sequence of frames. */
  function DecodeFrames(t: seq<Event>): Option<seq<seq<bool>>>
    decreases |t|
  {
    if t == [] then Some([])
    else if t[0] != CsLow then None
    else
      var (bs, rest) := ReadClocked(t[1..]);
      if rest == [] || rest[0] != CsHigh then None
      else match DecodeFrames(rest[1..])
        case None => None
        case Some(fs) => Some([bs] + fs)
  }

  /** The command byte of a command frame's bits. */
  function DecodeCommand(bs: seq<bool>): Option<bv8>
  {
    if |bs| == 12 && bs[..3] == [true, false, false] then Some(FromMsb(bs[3..11])) else None
  }

  /** What a data-write frame carries: the 3-bit mode tag, the 6-bit address and the data byte. */
  datatype WriteOp = WriteOp(tag: bv8, address: bv8, data: bv8)

  function DecodeWrite(bs: seq<bool>): Option<WriteOp>
  {
    if |bs| == 17 then Some(WriteOp(FromMsb(bs[..3]), FromMsb(bs[3..9]), FromMsb(bs[9..]))) else None
  }

  function DecodeCommandList(fs: seq<seq<bool>>): Option<seq<bv8>>
  {
    if fs == [] then Some([])
    else match (DecodeCommand(fs[0]), DecodeCommandList(fs[1..]))
      case (Some(c), Some(cs)) => Some([c] + cs)
      case _ => None
  }

  function DecodeWriteList(fs: seq<seq<bool>>): Option<seq<WriteOp>>
  {
    if fs == [] then Some([])
    else match (DecodeWrite(fs[0]), DecodeWriteList(fs[1..]))
      case (Some(w), Some(ws)) => Some([w] + ws)
      case _ => None
  }

  /** The command bytes a trace of command frames carries. */
  function DecodeCommandTrace(t: seq<Event>): Option<seq<bv8>>
  {
    match DecodeFrames(t)
    case None => None
    case Some(fs) => DecodeCommandList(fs)
  }

  /** The writes a trace of data-write frames carries. */
  function DecodeWriteTrace(t: seq<Event>): Option<seq<WriteOp>>
  {
    match DecodeFrames(t)
    case None => None
    case Some(fs) => DecodeWriteList(fs)
  }

  // ---------------------------------------------------------------------
  // Bits and clock pulses

  lemma {:induction false} ClockedAppend(a: seq<bool>, b: seq<bool>)
    ensures Clocked(a + b) == Clocked(a) + Clocked(b)
  {
    if a != [] {
      var head := [WrLow, Data(a[0]), WrHigh];
      assert (a + b)[0] == a[0];
      assert (a + b)[1..] == a[1..] + b;
      assert Clocked(a + b) == head + Clocked(a[1..] + b);
      ClockedAppend(a[1..], b);
      assert Clocked(a) == head + Clocked(a[1..]);
    } else {
      assert a + b == b;
    }
  }

  /**
    Every bit is one strobe pulse: event 3i is WR low, event 3i+1 puts bit i
    on the data line and event 3i+2 is WR high; chip select never moves.
   */
  lemma {:induction false} ClockedShape(bs: seq<bool>)
    ensures |Clocked(bs)| == 3 * |bs|
    ensures forall i :: 0 <= i < |bs| ==>
      Clocked(bs)[3 * i] == WrLow && Clocked(bs)[3 * i + 1] == Data(bs[i]) && Clocked(bs)[3 * i + 2] == WrHigh
    ensures forall k :: 0 <= k < |Clocked(bs)| ==> !Clocked(bs)[k].CsLow? && !Clocked(bs)[k].CsHigh?
  {
    if bs != [] {
      ClockedShape(bs[1..]);
      var t := Clocked(bs);
      assert t == [WrLow, Data(bs[0]), WrHigh] + Clocked(bs[1..]);
      forall i | 0 <= i < |bs|
        ensures t[3 * i] == WrLow && t[3 * i + 1] == Data(bs[i]) && t[3 * i + 2] == WrHigh
      {
        if i > 0 {
          assert bs[i] == bs[1..][i - 1];
          assert t[3 * i] == Clocked(bs[1..])[3 * (i - 1)];
          assert t[3 * i + 1] == Clocked(bs[1..])[3 * (i - 1) + 1];
          assert t[3 * i + 2] == Clocked(bs[1..])[3 * (i - 1) + 2];
        }
      }
    }
  }

  /** The bits of a byte come out most significant first: bit i of the run is bit 7-i of the byte. */
  lemma MsbBitsOfByte(x: bv8, cnt: nat)
    requires cnt <= 8
    ensures |MsbBits(x, cnt)| == cnt
    ensures forall i :: 0 <= i < cnt ==> MsbBits(x, cnt)[i] == ((x >> (7 - i)) & 1 == 1)
  {
  }

  lemma MsbBitsSnoc(x: bv8, k: nat)
    ensures MsbBits(x, k + 1) == MsbBits(x, k) + [k < 8 && TestBit(x, 7 - k)]
  {
  }

  lemma FromMsbSnoc(bs: seq<bool>, b: bool)
    ensures FromMsb(bs + [b]) == ShiftIn(FromMsb(bs), b)
  {
    assert (bs + [b])[..|bs + [b]| - 1] == bs;
  }

  /** The top k bits of a byte, moved down to the low end. */
  function TopBits(x: bv8, k: nat): bv8
    requires k <= 8
  {
    x >> (8 - k)
  }

  /** Reading back the first k bits of a byte gives its top k bits. */
  lemma {:induction false} FromMsbOfMsbBits(x: bv8, k: nat)
    requires k <= 8
    ensures FromMsb(MsbBits(x, k)) == TopBits(x, k)
  {
    if k == 0 {
      assert MsbBits(x, 0) == [];
    } else {
      FromMsbOfMsbBits(x, k - 1);
      FromMsbStep(x, k);
    }
  }

  /** One more bit read back shifts the top bits read so far and brings in the next one. */
  lemma FromMsbStep(x: bv8, k: nat)
    requires 1 <= k <= 8
    requires FromMsb(MsbBits(x, k - 1)) == TopBits(x, k - 1)
    ensures FromMsb(MsbBits(x, k)) == TopBits(x, k)
  {
    var prev, b := MsbBits(x, k - 1), TestBit(x, 8 - k);
    MsbBitsSnoc(x, k - 1);
    assert MsbBits(x, k) == prev + [b];
    FromMsbSnoc(prev, b);
    ShiftInBit(x, k);
  }

  lemma ShiftInBit(x: bv8, k: nat)
    requires 1 <= k <= 8
    ensures ShiftIn(TopBits(x, k - 1), TestBit(x, 8 - k)) == TopBits(x, k)
  {
    if k <= 4 { ShiftInLowBit(x, k); } else { ShiftInHighBit(x, k); }
  }

  lemma ShiftInLowBit(x: bv8, k: nat)
    requires 1 <= k <= 4
    ensures ShiftIn(TopBits(x, k - 1), TestBit(x, 8 - k)) == TopBits(x, k)
  {
    // Split by literal value: a shift or bv8 conversion by a constant is cheap for the solver.
    if k == 1 { } else if k == 2 { } else if k == 3 { } else { }
  }

  lemma ShiftInHighBit(x: bv8, k: nat)
    requires 5 <= k <= 8
    ensures ShiftIn(TopBits(x, k - 1), TestBit(x, 8 - k)) == TopBits(x, k)
  {
    // Split by literal value: a shift or bv8 conversion by a constant is cheap for the solver.
    if k == 5 { } else if k == 6 { } else if k == 7 { } else { }
  }

  /** Reading a clocked bit run back gives the bits and leaves the rest of the trace. */
  lemma {:induction false} ReadClockedOfClocked(bs: seq<bool>, rest: seq<Event>)
    requires rest == [] || rest[0] != WrLow
    ensures ReadClocked(Clocked(bs) + rest) == (bs, rest)
  {
    if bs != [] {
      var t := Clocked(bs) + rest;
      assert t == [WrLow, Data(bs[0]), WrHigh] + (Clocked(bs[1..]) + rest);
      assert t[0] == WrLow && t[1] == Data(bs[0]) && t[2] == WrHigh;
      assert t[3..] == Clocked(bs[1..]) + rest;
      ReadClockedOfClocked(bs[1..], rest);
      assert ReadClocked(t) == ([bs[0]] + bs[1..], rest);
      assert [bs[0]] + bs[1..] == bs;
    } else {
      assert Clocked(bs) + rest == rest;
    }
  }

  /** Decoding a run of frames gives back the bits of every frame. */
  lemma {:induction false} DecodeFramesOfFrames(fs: seq<seq<bool>>)
    ensures DecodeFrames(Frames(fs)) == Some(fs)
  {
    if fs != [] {
      var t := Frames(fs);
      var tail := Frames(fs[1..]);
      assert t == [CsLow] + (Clocked(fs[0]) + ([CsHigh] + tail));
      assert t[1..] == Clocked(fs[0]) + ([CsHigh] + tail);
      ReadClockedOfClocked(fs[0], [CsHigh] + tail);
      assert ([CsHigh] + tail)[1..] == tail;
      DecodeFramesOfFrames(fs[1..]);
      assert [fs[0]] + fs[1..] == fs;
    }
  }

  lemma {:induction false} FramesAppend(a: seq<seq<bool>>, b: seq<seq<bool>>)
    ensures Frames(a + b) == Frames(a) + Frames(b)
  {
    if a != [] {
      assert (a + b)[0] == a[0];
      assert (a + b)[1..] == a[1..] + b;
      assert Frames(a + b) == Framed(a[0]) + Frames(a[1..] + b);
      FramesAppend(a[1..], b);
    } else {
      assert a + b == b;
    }
  }

  // ---------------------------------------------------------------------
  // Frames

  /** The tags: command 100, write 101, read 110. */
  lemma ModeTagBits()
    ensures MsbBits(MODE_CMD, 3) == [true, false, false]
    ensures MsbBits(MODE_WRITE, 3) == [true, false, true]
    ensures MsbBits(MODE_READ, 3) == [true, true, false]
  {
  }

  /**
    A command frame is CS low, the 12 bits 1,0,0, the command byte MSB first
    and a 0, then CS high; CS does not move in between.
   */
  lemma CommandFrameLayout(cmd: bv8)
    ensures CommandPayload(cmd) == [true, false, false] + MsbBits(cmd, 8) + [false]
    ensures |CommandPayload(cmd)| == 12
    ensures var f := CommandFrame(cmd);
      |f| == 2 + 3 * 12 && f[0] == CsLow && f[|f| - 1] == CsHigh &&
      forall k :: 0 < k < |f| - 1 ==> !f[k].CsLow? && !f[k].CsHigh?
  {
    ModeTagBits();
    assert MsbBits(0, 1) == [false];
    FramedEdges(CommandPayload(cmd));
  }

  /** A frame of n bits has 2 + 3n events, with CS edges only at its two ends. */
  lemma FramedEdges(bs: seq<bool>)
    ensures var f := Framed(bs);
      |f| == 2 + 3 * |bs| && f[0] == CsLow && f[|f| - 1] == CsHigh &&
      forall k :: 0 < k < |f| - 1 ==> !f[k].CsLow? && !f[k].CsHigh?
  {
    ClockedShape(bs);
    var f := Framed(bs);
    forall k | 0 < k < |f| - 1 ensures !f[k].CsLow? && !f[k].CsHigh? {
      assert f[k] == Clocked(bs)[k - 1];
    }
  }

  /** Bit j of the six address bits is bit 5-j of the address. */
  lemma AddressBits(adr: bv8)
    ensures MsbBits(adr << 2, 6) == AddressBitsMsb(adr)
  {
  }

  /** Bits 5..0 of `adr`, most significant first. */
  function AddressBitsMsb(adr: bv8): seq<bool>
  {
    [TestBit(adr, 5), TestBit(adr, 4), TestBit(adr, 3), TestBit(adr, 2), TestBit(adr, 1), TestBit(adr, 0)]
  }

  /**
    A write frame is CS low, 17 bits (the top 3 bits of the mode, bits 5..0
    of the address, the data byte MSB first), then CS high.
   */
  lemma WriteFrameLayout(adr: bv8, data: bv8, mode: bv8)
    ensures var bs := WritePayload(adr, data, mode);
      |bs| == 17 &&
      bs[..3] == MsbBits(mode, 3) &&
      bs[3..9] == AddressBitsMsb(adr) &&
      bs[9..] == MsbBits(data, 8)
    ensures var f := WriteFrame(adr, data, mode);
      |f| == 2 + 3 * 17 && f[0] == CsLow && f[|f| - 1] == CsHigh &&
      forall k :: 0 < k < |f| - 1 ==> !f[k].CsLow? && !f[k].CsHigh?
  {
    var bs := WritePayload(adr, data, mode);
    AddressBits(adr);
    assert bs[3..9] == MsbBits(adr << 2, 6);
    assert bs[9..] == MsbBits(data, 8);
    FramedEdges(bs);
  }

  /** A command frame decodes to its command byte. */
  lemma CommandRoundTrip(cmd: bv8)
    ensures DecodeFrames(CommandFrame(cmd)) == Some([CommandPayload(cmd)])
    ensures DecodeCommand(CommandPayload(cmd)) == Some(cmd)
  {
    assert Frames([CommandPayload(cmd)]) == CommandFrame(cmd);
    DecodeFramesOfFrames([CommandPayload(cmd)]);
    CommandFrameLayout(cmd);
    var bs := CommandPayload(cmd);
    assert bs[3..11] == MsbBits(cmd, 8);
    FromMsbOfMsbBits(cmd, 8);
  }

  /**
    A write frame decodes to the top three bits of the mode, the address
    without its top two bits, and the data byte.
   */
  lemma WriteRoundTrip(adr: bv8, data: bv8, mode: bv8)
    ensures DecodeFrames(WriteFrame(adr, data, mode)) == Some([WritePayload(adr, data, mode)])
    ensures DecodeWrite(WritePayload(adr, data, mode)) == Some(WriteOp(mode >> 5, adr & 0x3F, data))
  {
    assert Frames([WritePayload(adr, data, mode)]) == WriteFrame(adr, data, mode);
    DecodeFramesOfFrames([WritePayload(adr, data, mode)]);
    var bs := WritePayload(adr, data, mode);
    assert bs[..3] == MsbBits(mode, 3);
    assert bs[3..9] == MsbBits(adr << 2, 6);
    assert bs[9..] == MsbBits(data, 8);
    FromMsbOfMsbBits(mode, 3);
    FromMsbOfMsbBits(adr << 2, 6);
    FromMsbOfMsbBits(data, 8);
    assert (adr << 2) >> 2 == adr & 0x3F;
  }

  /**
    The top two address bits never reach the chip: two write frames with the
    same data and mode are equal exactly when the addresses agree in bits 5..0.
   */
  lemma WriteFrameDropsTopAddressBits(a1: bv8, a2: bv8, data: bv8, mode: bv8)
    ensures WriteFrame(a1, data, mode) == WriteFrame(a2, data, mode) <==> a1 & 0x3F == a2 & 0x3F
  {
    WriteRoundTrip(a1, data, mode);
    WriteRoundTrip(a2, data, mode);
    if a1 & 0x3F == a2 & 0x3F {
      assert (a1 << 2) == (a2 << 2);
    }
  }

  /** A run of command frames decodes to its commands, in order. */
  lemma {:induction false} CommandTraceRoundTrip(cs: seq<bv8>)
    ensures DecodeCommandTrace(CommandTrace(cs)) == Some(cs)
  {
    CommandTraceIsFrames(cs);
    DecodeFramesOfFrames(CommandPayloads(cs));
    CommandListRoundTrip(cs);
  }

  lemma {:induction false} CommandTraceIsFrames(cs: seq<bv8>)
    ensures CommandTrace(cs) == Frames(CommandPayloads(cs))
  {
    if cs != [] {
      CommandTraceIsFrames(cs[1..]);
    }
  }

  lemma {:induction false} CommandListRoundTrip(cs: seq<bv8>)
    ensures DecodeCommandList(CommandPayloads(cs)) == Some(cs)
  {
    CommandPayloadsAt(cs);
    forall i | 0 <= i < |cs| ensures DecodeCommand(CommandPayloads(cs)[i]) == Some(cs[i]) {
      CommandRoundTrip(cs[i]);
    }
    DecodeCommandListOf(CommandPayloads(cs), cs);
  }

  lemma {:induction false} CommandPayloadsAt(cs: seq<bv8>)
    ensures |CommandPayloads(cs)| == |cs|
    ensures forall i :: 0 <= i < |cs| ==> CommandPayloads(cs)[i] == CommandPayload(cs[i])
  {
    if cs != [] {
      CommandPayloadsAt(cs[1..]);
    }
  }

  /** Frame bits that each decode to a command decode, as a list, to the list of those commands. */
  lemma {:induction false} DecodeCommandListOf(fs: seq<seq<bool>>, cs: seq<bv8>)
    requires |fs| == |cs|
    requires forall i :: 0 <= i < |fs| ==> DecodeCommand(fs[i]) == Some(cs[i])
    ensures DecodeCommandList(fs) == Some(cs)
  {
    if fs != [] {
      assert DecodeCommand(fs[0]) == Some(cs[0]);
      DecodeCommandListOf(fs[1..], cs[1..]);
      assert [cs[0]] + cs[1..] == cs;
    }
  }

  /** Frame bits that each decode to a write decode, as a list, to the list of those writes. */
  lemma {:induction false} DecodeWriteListOf(fs: seq<seq<bool>>, ws: seq<WriteOp>)
    requires |fs| == |ws|
    requires forall i :: 0 <= i < |fs| ==> DecodeWrite(fs[i]) == Some(ws[i])
    ensures DecodeWriteList(fs) == Some(ws)
  {
    if fs != [] {
      assert DecodeWrite(fs[0]) == Some(ws[0]);
      DecodeWriteListOf(fs[1..], ws[1..]);
      assert [ws[0]] + ws[1..] == ws;
    }
  }
}
