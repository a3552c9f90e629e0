/**
 * The wire-level behaviour of one frame transfer: the 16-bit word built from a
 * start byte and a payload byte, its bits read most-significant first, and the
 * exact sequence of line writes and delays that `send` and `clockPulse` emit.
 * These functions are the specification that the driver's `Send` method is
 * proved against; the lemmas state what the sequence guarantees.
 */
module Transport {

  /** The three output lines, by role: serial clock, strobe (latch) and serial data in. */
  datatype Line = Clock | Strobe | SerialIn

  /** One observable action of the driver on its I/O collaborator. */
  datatype Event =
    | OutputMode(line: Line)     // the line is configured as an output
    | Drive(line: Line, high: bool) // the line is driven to a logic level
    | Delay(us: nat)                // a blocking wait, recorded by its length only

  /** A frame: a start byte (command or data) followed by a payload byte. */
  datatype Frame = Frame(mode: bv8, value: bv8)

  /** The 16-bit word `value | (mode << 8)` that is shifted out. */
  function Word(f: Frame): (w: bv16)
    ensures (w >> 8) as bv8 == f.mode && (w & 0xFF) as bv8 == f.value
  {
    (f.mode as bv16 << 8) | f.value as bv16
  }

  /** Bit `i` of `w`, as `bitRead` gives it. */
  function Bit(w: bv16, i: nat): bool
    requires i < 16
  {
    (w >> i) & 1 == 1
  }

  /** `Bit` agrees with testing the word against the single-bit mask `1 << i`. */
  lemma BitIsMaskTest(w: bv16, i: nat)
    requires i < 16
    ensures Bit(w, i) <==> w & (1 << i) != 0
  {
    if i < 8 {
      LowBitIsMaskTest(w, i);
    } else {
      HighBitIsMaskTest(w, i);
    }
  }

  lemma LowBitIsMaskTest(w: bv16, i: nat)
    requires i < 8
    ensures Bit(w, i) <==> w & (1 << i) != 0
  {
    match i
    case 0 => case 1 => case 2 => case 3 => case 4 => case 5 => case 6 => case 7 =>
  }

  lemma HighBitIsMaskTest(w: bv16, i: nat)
    requires 8 <= i < 16
    ensures Bit(w, i) <==> w & (1 << i) != 0
  {
    match i
    case 8 => case 9 => case 10 => case 11 => case 12 => case 13 => case 14 => case 15 =>
  }

  /** Bit `i` of a byte. */
  function ByteBit(b: bv8, i: nat): bool
    requires i < 8
  {
    (b >> i) & 1 == 1
  }

  /** The sixteen bits of `w`, bit 15 first. */
  function MsbBits(w: bv16): seq<bool> {
    seq(16, k requires 0 <= k < 16 => Bit(w, 15 - k))
  }

  /** The eight bits of `b`, bit 7 first. */
  function ByteMsbBits(b: bv8): seq<bool> {
    seq(8, k requires 0 <= k < 8 => ByteBit(b, 7 - k))
  }

  /** The byte whose bits, most-significant first, are `bs`. */
  function ByteFromBits(bs: seq<bool>): bv8
    requires |bs| == 8
  {
    (if bs[0] then 0x80 else 0) | (if bs[1] then 0x40 else 0) |
    (if bs[2] then 0x20 else 0) | (if bs[3] then 0x10 else 0) |
    (if bs[4] then 0x08 else 0) | (if bs[5] then 0x04 else 0) |
    (if bs[6] then 0x02 else 0) | (if bs[7] then 0x01 else 0)
  }

  /** The frame whose sixteen bits are `bs`: start byte first, then payload. */
  function FrameFromBits(bs: seq<bool>): Frame
    requires |bs| == 16
  {
    Frame(ByteFromBits(bs[..8]), ByteFromBits(bs[8..]))
  }

  /** The bits of a frame's word are the start byte's bits followed by the payload's bits. */
  lemma FrameBitsAreModeThenValue(f: Frame)
    ensures MsbBits(Word(f)) == ByteMsbBits(f.mode) + ByteMsbBits(f.value)
  {
    var w := Word(f);
    forall k | 0 <= k < 16
      ensures MsbBits(w)[k] == (ByteMsbBits(f.mode) + ByteMsbBits(f.value))[k]
    {
      if k < 8 {
        ModeBit(f, 7 - k);
      } else {
        ValueBit(f, 15 - k);
      }
    }
  }

  // Each bit lemma below is proved one concrete bit position at a time, which
  // keeps the bit-vector reasoning small.

  lemma ModeBit(f: Frame, i: nat)
    requires i < 8
    ensures Bit(Word(f), i + 8) == ByteBit(f.mode, i)
  {
    match i
    case 0 => case 1 => case 2 => case 3 => case 4 => case 5 => case 6 => case 7 =>
  }

  lemma ValueBit(f: Frame, i: nat)
    requires i < 8
    ensures Bit(Word(f), i) == ByteBit(f.value, i)
  {
    match i
    case 0 => case 1 => case 2 => case 3 => case 4 => case 5 => case 6 => case 7 =>
  }

  /** Round trip for one byte: its eight bits, most-significant first, decode back to it. */
  lemma ByteRoundTrip(b: bv8)
    ensures ByteFromBits(ByteMsbBits(b)) == b
  {
    var bs := ByteMsbBits(b);
    assert bs[0] == ByteBit(b, 7) && bs[1] == ByteBit(b, 6) && bs[2] == ByteBit(b, 5) && bs[3] == ByteBit(b, 4);
    assert bs[4] == ByteBit(b, 3) && bs[5] == ByteBit(b, 2) && bs[6] == ByteBit(b, 1) && bs[7] == ByteBit(b, 0);
  }

  /** Round trip for frames: the sixteen bits of a frame's word decode back to the frame. */
  lemma FrameRoundTrip(f: Frame)
    ensures FrameFromBits(MsbBits(Word(f))) == f
  {
    var bs := MsbBits(Word(f));
    FrameBitsAreModeThenValue(f);
    assert bs[..8] == ByteMsbBits(f.mode);
    assert bs[8..] == ByteMsbBits(f.value);
    ByteRoundTrip(f.mode);
    ByteRoundTrip(f.value);
  }

  // The fixed pieces of a transfer (PT6314.cpp send and clockPulse).

  /** Strobe low, 1 us, clock low. */
  const OPENING: seq<Event> := [Drive(Strobe, false), Delay(1), Drive(Clock, false)]

  /** One clock pulse: 2 us, clock high, 2 us, clock low. */
  const PULSE: seq<Event> := [Delay(2), Drive(Clock, true), Delay(2), Drive(Clock, false)]

  /** Clock high, strobe high, 1 us. */
  const CLOSING: seq<Event> := [Drive(Clock, true), Drive(Strobe, true), Delay(1)]

  /** One loop iteration of `send`: put a bit on the data line, then pulse the clock. */
  function BitEvents(b: bool): seq<Event> {
    [Drive(SerialIn, b)] + PULSE
  }

  /** The loop iterations that shift out `bits`, first bit first. */
  function Shift(bits: seq<bool>): seq<Event> {
    if bits == [] then [] else Shift(bits[..|bits| - 1]) + BitEvents(bits[|bits| - 1])
  }

  lemma ConcatAssoc<T>(a: seq<T>, b: seq<T>, c: seq<T>)
    ensures a + (b + c) == (a + b) + c
  {
  }

  /** Shifting out one more bit appends that bit's loop iteration. */
  lemma ShiftStep(bits: seq<bool>, n: nat)
    requires n < |bits|
    ensures Shift(bits[..n + 1]) == Shift(bits[..n]) + BitEvents(bits[n])
  {
    assert bits[..n + 1][..n] == bits[..n];
  }

  /** One more loop iteration of `send` extends the shifted prefix by one bit. */
  lemma ShiftLoopStep(start: seq<Event>, before: seq<Event>, bits: seq<bool>, n: nat)
    requires n < |bits|
    requires before == start + Shift(bits[..n])
    ensures before + [Drive(SerialIn, bits[n])] + PULSE == start + Shift(bits[..n + 1])
  {
    ShiftStep(bits, n);
    ConcatAssoc(before, [Drive(SerialIn, bits[n])], PULSE);
    ConcatAssoc(start, Shift(bits[..n]), BitEvents(bits[n]));
  }

  /** Everything one call of `send` emits. */
  function SendEvents(f: Frame): seq<Event> {
    OPENING + Shift(MsbBits(Word(f))) + CLOSING
  }

  lemma SendAssembled(t: seq<Event>, f: Frame)
    ensures t + OPENING + Shift(MsbBits(Word(f))) + CLOSING == t + SendEvents(f)
  {
    ConcatAssoc(t, OPENING + Shift(MsbBits(Word(f))), CLOSING);
    ConcatAssoc(t, OPENING, Shift(MsbBits(Word(f))));
  }

  /** Everything a run of consecutive `send` calls emits. */
  function FramesEvents(fs: seq<Frame>): seq<Event> {
    if fs == [] then [] else FramesEvents(fs[..|fs| - 1]) + SendEvents(fs[|fs| - 1])
  }

  /**
   * A run of transfers, each followed by its settling wait: frame `fs[k]` is
   * sent and then the driver waits `waits[k]` microseconds.
   */
  function PacedEvents(fs: seq<Frame>, waits: seq<nat>): seq<Event>
    requires |fs| == |waits|
  {
    if fs == [] then []
    else PacedEvents(fs[..|fs| - 1], waits[..|waits| - 1]) + SendEvents(fs[|fs| - 1]) + [Delay(waits[|waits| - 1])]
  }

  /** Sending frame `k` after frames `..k` extends a run of transfers by one. */
  lemma FramesStep(start: seq<Event>, before: seq<Event>, fs: seq<Frame>, k: nat)
    requires k < |fs|
    requires before == start + FramesEvents(fs[..k])
    ensures before + SendEvents(fs[k]) == start + FramesEvents(fs[..k + 1])
  {
    assert fs[..k + 1][..k] == fs[..k];
    ConcatAssoc(start, FramesEvents(fs[..k]), SendEvents(fs[k]));
  }

  /** Sending frame `k` and waiting `waits[k]` extends a paced run by one. */
  lemma PacedStep(start: seq<Event>, before: seq<Event>, fs: seq<Frame>, waits: seq<nat>, k: nat)
    requires k < |fs| == |waits|
    requires before == start + PacedEvents(fs[..k], waits[..k])
    ensures before + SendEvents(fs[k]) + [Delay(waits[k])] == start + PacedEvents(fs[..k + 1], waits[..k + 1])
  {
    assert fs[..k + 1][..k] == fs[..k];
    assert waits[..k + 1][..k] == waits[..k];
    var p := PacedEvents(fs[..k], waits[..k]);
    ConcatAssoc(start, p, SendEvents(fs[k]));
    ConcatAssoc(start, p + SendEvents(fs[k]), [Delay(waits[k])]);
  }

  /** The event writes line `l`. */
  predicate Writes(e: Event, l: Line) {
    e.Drive? && e.line == l
  }

  /** The levels written to the data line, in order. */
  function DataWrites(es: seq<Event>): seq<bool> {
    if es == [] then []
    else DataWrites(es[..|es| - 1]) +
         (if Writes(es[|es| - 1], SerialIn) then [es[|es| - 1].high] else [])
  }

  /** The bits of a run of frames, frame after frame, each most-significant first. */
  function FramesBits(fs: seq<Frame>): seq<bool> {
    if fs == [] then [] else FramesBits(fs[..|fs| - 1]) + MsbBits(Word(fs[|fs| - 1]))
  }

  /** A stretch with no write to the data line contributes no data bits. */
  lemma {:induction false} DataWritesNone(es: seq<Event>)
    requires forall i :: 0 <= i < |es| ==> !Writes(es[i], SerialIn)
    ensures DataWrites(es) == []
  {
    if es != [] {
      DataWritesNone(es[..|es| - 1]);
    }
  }

  lemma {:induction false} DataWritesAppend(a: seq<Event>, b: seq<Event>)
    ensures DataWrites(a + b) == DataWrites(a) + DataWrites(b)
    decreases |b|
  {
    if b == [] {
      assert a + b == a;
    } else {
      assert (a + b)[..|a + b| - 1] == a + b[..|b| - 1];
      DataWritesAppend(a, b[..|b| - 1]);
    }
  }

  /** Shifting out `bits` writes exactly `bits` to the data line, in order. */
  lemma {:induction false} ShiftData(bits: seq<bool>)
    ensures DataWrites(Shift(bits)) == bits
  {
    if bits != [] {
      var b := bits[|bits| - 1];
      ShiftData(bits[..|bits| - 1]);
      DataWritesAppend(Shift(bits[..|bits| - 1]), BitEvents(b));
      DataWritesAppend([Drive(SerialIn, b)], PULSE);
      DataWritesNone(PULSE);
      assert [Drive(SerialIn, b)][..0] == [];
      assert DataWrites([Drive(SerialIn, b)]) == [b];
      assert bits == bits[..|bits| - 1] + [b];
    }
  }

  /** The data line carries the frame's 16 bits, bit 15 first, and nothing else. */
  lemma SendDataIsWordMsbFirst(f: Frame)
    ensures DataWrites(SendEvents(f)) == MsbBits(Word(f))
    ensures DataWrites(SendEvents(f)) == ByteMsbBits(f.mode) + ByteMsbBits(f.value)
  {
    var bits := MsbBits(Word(f));
    DataWritesAppend(OPENING, Shift(bits));
    DataWritesAppend(OPENING + Shift(bits), CLOSING);
    DataWritesNone(OPENING);
    DataWritesNone(CLOSING);
    ShiftData(bits);
    FrameBitsAreModeThenValue(f);
  }

  /** The 16 levels written to the data line during one transfer decode to the frame that was sent. */
  lemma SendDecodes(f: Frame)
    ensures |DataWrites(SendEvents(f))| == 16
    ensures FrameFromBits(DataWrites(SendEvents(f))) == f
  {
    SendDataIsWordMsbFirst(f);
    FrameRoundTrip(f);
  }

  /** A run of transfers carries the bits of every frame, in the order the frames were sent. */
  lemma {:induction false} FramesDataBits(fs: seq<Frame>)
    ensures DataWrites(FramesEvents(fs)) == FramesBits(fs)
  {
    if fs != [] {
      FramesDataBits(fs[..|fs| - 1]);
      DataWritesAppend(FramesEvents(fs[..|fs| - 1]), SendEvents(fs[|fs| - 1]));
      SendDataIsWordMsbFirst(fs[|fs| - 1]);
    }
  }

  /** The settling waits add nothing to the data line: a paced run carries the same bits as an unpaced one. */
  lemma {:induction false} PacedDataBits(fs: seq<Frame>, waits: seq<nat>)
    requires |fs| == |waits|
    ensures DataWrites(PacedEvents(fs, waits)) == FramesBits(fs)
  {
    if fs != [] {
      var last := fs[|fs| - 1];
      var p := PacedEvents(fs[..|fs| - 1], waits[..|waits| - 1]);
      PacedDataBits(fs[..|fs| - 1], waits[..|waits| - 1]);
      DataWritesAppend(p + SendEvents(last), [Delay(waits[|waits| - 1])]);
      DataWritesAppend(p, SendEvents(last));
      DataWritesNone([Delay(waits[|waits| - 1])]);
      SendDataIsWordMsbFirst(last);
    }
  }

  /** Iteration `k` sits at offset 5k: one data write carrying bit k, then exactly one clock pulse. */
  lemma {:induction false} ShiftShape(bits: seq<bool>)
    ensures |Shift(bits)| == 5 * |bits|
    ensures forall k :: 0 <= k < |bits| ==>
              Shift(bits)[5 * k] == Drive(SerialIn, bits[k]) &&
              Shift(bits)[5 * k + 1 .. 5 * k + 5] == PULSE
    ensures forall i :: 0 <= i < |Shift(bits)| ==> !Writes(Shift(bits)[i], Strobe)
  {
    if bits != [] {
      var init := bits[..|bits| - 1];
      ShiftShape(init);
      var e := Shift(bits);
      assert e == Shift(init) + BitEvents(bits[|bits| - 1]);
      forall k | 0 <= k < |bits|
        ensures e[5 * k] == Drive(SerialIn, bits[k]) && e[5 * k + 1 .. 5 * k + 5] == PULSE
      {
        if k < |init| {
          assert e[5 * k] == Shift(init)[5 * k];
          assert e[5 * k + 1 .. 5 * k + 5] == Shift(init)[5 * k + 1 .. 5 * k + 5];
        }
      }
    }
  }

  /**
   * The complete shape of one transfer: strobe goes low first; then for each bit
   * from 15 down to 0 one data write followed by exactly one clock pulse; then
   * clock high, strobe high and a 1 us wait.  Strobe is written nowhere else.
   */
  lemma SendShape(f: Frame)
    ensures |SendEvents(f)| == 86
    ensures SendEvents(f)[..3] == OPENING
    ensures forall k :: 0 <= k < 16 ==>
              SendEvents(f)[3 + 5 * k] == Drive(SerialIn, MsbBits(Word(f))[k]) &&
              SendEvents(f)[3 + 5 * k + 1 .. 3 + 5 * k + 5] == PULSE
    ensures SendEvents(f)[83..] == CLOSING
    ensures forall i :: 0 < i < 84 ==> !Writes(SendEvents(f)[i], Strobe)
  {
    var bits := MsbBits(Word(f));
    var body := Shift(bits);
    ShiftShape(bits);
    var e := SendEvents(f);
    assert e == OPENING + body + CLOSING;
    forall k | 0 <= k < 16
      ensures e[3 + 5 * k] == Drive(SerialIn, bits[k])
      ensures e[3 + 5 * k + 1 .. 3 + 5 * k + 5] == PULSE
    {
      assert e[3 + 5 * k] == body[5 * k];
      assert e[3 + 5 * k + 1 .. 3 + 5 * k + 5] == body[5 * k + 1 .. 5 * k + 5];
    }
    forall i | 0 < i < 84
      ensures !Writes(e[i], Strobe)
    {
      if 3 <= i < 83 {
        assert e[i] == body[i - 3];
      }
    }
  }

  /**
   * The closing clock-high of a transfer is a 17th rising clock edge: it comes
   * after the last pulse's clock-low and before the strobe rises, and the data
   * line still carries bit 0 of the word, written at index 78 and not since.
   */
  lemma ClosingEdge(f: Frame)
    ensures |SendEvents(f)| == 86
    ensures SendEvents(f)[0] == Drive(Strobe, false)
    ensures forall i :: 0 < i < 84 ==> !Writes(SendEvents(f)[i], Strobe)
    ensures SendEvents(f)[78] == Drive(SerialIn, Bit(Word(f), 0))
    ensures forall i :: 78 < i < 84 ==> !Writes(SendEvents(f)[i], SerialIn)
    ensures SendEvents(f)[82] == Drive(Clock, false) && SendEvents(f)[83] == Drive(Clock, true)
    ensures SendEvents(f)[84] == Drive(Strobe, true)
  {
    var e := SendEvents(f);
    SendShape(f);
    assert e[..3][0] == e[0];
    assert e[3 + 5 * 15] == Drive(SerialIn, MsbBits(Word(f))[15]);
    var pulse := e[3 + 5 * 15 + 1 .. 3 + 5 * 15 + 5];
    assert pulse == PULSE;
    assert e[82] == pulse[3];
    forall i | 78 < i < 84
      ensures !Writes(e[i], SerialIn)
    {
      if i < 83 {
        assert e[i] == pulse[i - 79];
      } else {
        assert e[i] == e[83..][0];
      }
    }
    assert e[83] == e[83..][0] && e[84] == e[83..][1];
  }
}
