/**
 * The controller model: how each public operation of the PT6314 driver edits
 * its shadow registers and which command or data bytes it composes.  These are
 * the specification functions the driver's methods are proved against.
 */
module Controller {
  import opened Constants
  import opened Transport

  datatype Option<T> = None | Some(value: T)

  /** The function register after construction: FUNCTION_SET | 8BITMODE | 1LINE | BRT_100. */
  const INIT_FUNCTION: bv8 := FUNCTION_SET | EIGHT_BIT_MODE | ONE_LINE | BRT_100

  /** The control register after `begin`: DISPLAYCONTROL | DISPLAYON | CURSOROFF | BLINKOFF. */
  const BEGIN_CONTROL: bv8 := DISPLAY_CONTROL | DISPLAY_ON | CURSOR_OFF | BLINK_OFF

  /** The entry-mode register after `begin`: ENTRYMODESET | INCREMENT | CURSORSHIFTENABLED. */
  const BEGIN_MODE: bv8 := ENTRY_MODE_SET | INCREMENT | CURSOR_SHIFT_ENABLED

  /** The register defaults: 0x30 (8-bit, one line, full brightness), 0x0C (display on only), 0x06 (increment). */
  lemma RegisterDefaults()
    ensures INIT_FUNCTION == 0x30 && BEGIN_CONTROL == 0x0C && BEGIN_MODE == 0x06
    ensures INIT_FUNCTION & TWO_LINE == 0 && INIT_FUNCTION & 3 == BRT_100
    ensures BEGIN_CONTROL & DISPLAY_ON != 0 && BEGIN_CONTROL & (CURSOR_ON | BLINK_ON) == 0
    ensures BEGIN_MODE & INCREMENT != 0 && BEGIN_MODE & DISPLAY_SHIFT_ENABLED == 0
  {
  }

  /** A display-control byte: the DISPLAY_CONTROL opcode with only the three control flags free. */
  predicate IsControlByte(r: bv8) {
    r & !(DISPLAY_ON | CURSOR_ON | BLINK_ON) == DISPLAY_CONTROL
  }

  /** A function-set byte: FUNCTION_SET | 8BITMODE with only the line-count and brightness bits free. */
  predicate IsFunctionByte(r: bv8) {
    r & !(TWO_LINE | 3) == FUNCTION_SET | EIGHT_BIT_MODE
  }

  /** The controller decodes such bytes by their highest set bit: DISPLAY CONTROL and FUNCTION SET. */
  lemma WellFormedBytesDecode(r: bv8)
    ensures IsControlByte(r) ==> r & 0xF8 == DISPLAY_CONTROL
    ensures IsFunctionByte(r) ==> r & 0xE0 == FUNCTION_SET && r & EIGHT_BIT_MODE != 0
    ensures IsControlByte(BEGIN_CONTROL) && IsFunctionByte(INIT_FUNCTION)
  {
  }

  /** `reg` with the bits of `flag` set (`reg | flag`) or cleared (`reg & ~flag`). */
  function WithFlag(reg: bv8, flag: bv8, on: bool): (r: bv8)
    ensures r & flag == (if on then flag else 0)
    ensures r & !flag == reg & !flag
  {
    if on then reg | flag else reg & !flag
  }

  /** Editing one flag leaves a disjoint flag exactly as it was. */
  lemma WithFlagKeepsOtherFlag(reg: bv8, flag: bv8, on: bool, other: bv8)
    requires flag & other == 0
    ensures WithFlag(reg, flag, on) & other == reg & other
  {
  }

  /** Setting or clearing a control flag keeps a display-control byte one. */
  lemma ControlEditKeepsControlByte(c: bv8, flag: bv8, on: bool)
    requires flag == DISPLAY_ON || flag == CURSOR_ON || flag == BLINK_ON
    ensures IsControlByte(c) ==> IsControlByte(WithFlag(c, flag, on))
  {
  }

  /** `cursor(); blink(); noCursor()` leaves blink on, cursor off and the rest of the register as it was. */
  lemma CursorBlinkNoCursor(c: bv8)
    ensures WithFlag(WithFlag(WithFlag(c, CURSOR_ON, true), BLINK_ON, true), CURSOR_ON, false) ==
            (c | BLINK_ON) & !CURSOR_ON
  {
  }

  /** The register that `begin(cols, rows)` leaves: TWO_LINE is ORed in exactly when `rows > 1`. */
  function BeginFunction(function_: bv8, rows: bv8): (r: bv8)
    ensures r & TWO_LINE == (if rows > 1 then TWO_LINE else function_ & TWO_LINE)
    ensures r & !TWO_LINE == function_ & !TWO_LINE
  {
    if rows > 1 then function_ | TWO_LINE else function_
  }

  /** `begin` keeps a function-set byte one. */
  lemma BeginKeepsFunctionByte(r: bv8, rows: bv8)
    ensures IsFunctionByte(r) ==> IsFunctionByte(BeginFunction(r, rows))
  {
  }

  /** From the constructor's register, `begin(16, 2)` yields 0x38 and `begin(16, 1)` keeps 0x30. */
  lemma BeginLineCount()
    ensures BeginFunction(INIT_FUNCTION, 2) == 0x38
    ensures BeginFunction(INIT_FUNCTION, 1) == 0x30
    ensures forall rows: bv8 :: BeginFunction(INIT_FUNCTION, rows) & TWO_LINE != 0 <==> rows > 1
  {
  }

  /** The four commands `begin` sends: clear, then the control, entry-mode and function registers. */
  function BeginFrames(control: bv8, mode: bv8, function_: bv8): (fs: seq<Frame>)
    ensures |fs| == |BEGIN_WAITS|
  {
    [Frame(COMMAND, CLEAR_DISPLAY), Frame(COMMAND, control),
     Frame(COMMAND, mode), Frame(COMMAND, function_)]
  }

  /** The settling wait, in microseconds, after each of `begin`'s four commands. */
  const BEGIN_WAITS: seq<nat> := [2000, 4500, 4500, 4500]

  /** The wait, in microseconds, before `begin` sends anything. */
  const POWER_ON_WAIT: nat := 50000

  /** The transfers and waits of `begin`, written out call by call, form the paced run of BeginFrames. */
  lemma BeginSequence(t: seq<Event>, control: bv8, mode: bv8, function_: bv8)
    ensures t + SendEvents(Frame(COMMAND, CLEAR_DISPLAY)) + [Delay(2000)]
              + SendEvents(Frame(COMMAND, control)) + [Delay(4500)]
              + SendEvents(Frame(COMMAND, mode)) + [Delay(4500)]
              + SendEvents(Frame(COMMAND, function_)) + [Delay(4500)]
            == t + PacedEvents(BeginFrames(control, mode, function_), BEGIN_WAITS)
  {
    var fs := BeginFrames(control, mode, function_);
    assert fs[..0] == [] && BEGIN_WAITS[..0] == [];
    var t1 := t + SendEvents(fs[0]) + [Delay(2000)];
    PacedStep(t, t, fs, BEGIN_WAITS, 0);
    var t2 := t1 + SendEvents(fs[1]) + [Delay(4500)];
    PacedStep(t, t1, fs, BEGIN_WAITS, 1);
    var t3 := t2 + SendEvents(fs[2]) + [Delay(4500)];
    PacedStep(t, t2, fs, BEGIN_WAITS, 2);
    PacedStep(t, t3, fs, BEGIN_WAITS, 3);
    assert fs[..4] == fs && BEGIN_WAITS[..4] == BEGIN_WAITS;
  }

  /** The DDRAM address of `setCursor(col, row)`: `col`, plus 0x40 on any row but the first, in 8 bits. */
  function DdramAddress(col: bv8, row: bv8): (a: bv8)
    ensures a as int == (col as int + (if row > 0 then 0x40 else 0)) % 256
  {
    if row > 0 then col + 0x40 else col
  }

  /** The command byte of `setCursor`: the SET_DDRAM_ADDR opcode ORed onto the address. */
  function SetCursorCommand(col: bv8, row: bv8): (p: bv8)
    ensures p & SET_DDRAM_ADDR == SET_DDRAM_ADDR
    ensures p & !SET_DDRAM_ADDR == DdramAddress(col, row) & !SET_DDRAM_ADDR
  {
    SET_DDRAM_ADDR | DdramAddress(col, row)
  }

  /** `setCursor(5, 1)` addresses 0x45 and sends 0xC5; `setCursor(5, 0)` addresses 0x05 and sends 0x85. */
  lemma SetCursorExamples()
    ensures DdramAddress(5, 1) == 0x45 && SetCursorCommand(5, 1) == 0xC5
    ensures DdramAddress(5, 0) == 0x05 && SetCursorCommand(5, 0) == 0x85
  {
  }

  /** The brightness code `setBrightness` ORs in, if `brt` is one of its four levels. */
  function BrightnessCode(brt: bv8): (c: Option<bv8>)
    ensures c.Some? <==> brt == 100 || brt == 75 || brt == 50 || brt == 25
    ensures c.Some? ==> c.value & !3 == 0 && c.value * 25 == 100 - brt
  {
    match brt
    case 100 => Some(BRT_100)
    case 75 => Some(BRT_75)
    case 50 => Some(BRT_50)
    case 25 => Some(BRT_25)
    case _ => None
  }

  /** The function register after `setBrightness(brt)`: the code is ORed in, never masked first. */
  function WithBrightness(function_: bv8, brt: bv8): (r: bv8)
    ensures r & function_ == function_
    ensures r & !3 == function_ & !3
    ensures BrightnessCode(brt).Some? ==> r & 3 == (function_ & 3) | BrightnessCode(brt).value
    ensures BrightnessCode(brt).None? || brt == 100 ==> r == function_
  {
    match BrightnessCode(brt)
    case Some(code) => function_ | code
    case None => function_
  }

  /** `setBrightness` keeps a function-set byte one, whatever the level. */
  lemma BrightnessKeepsFunctionByte(r: bv8, brt: bv8)
    ensures IsFunctionByte(r) ==> IsFunctionByte(WithBrightness(r, brt))
  {
  }

  /** Brightness codes accumulate: 75% then 50% leaves code 3 (25%), and so does 100% then 25%. */
  lemma BrightnessAccumulates(function_: bv8)
    requires function_ & 3 == BRT_100
    ensures WithBrightness(WithBrightness(function_, 75), 50) & 3 == BRT_25
    ensures WithBrightness(WithBrightness(function_, 100), 25) & 3 == BRT_25
  {
  }

  /** Once any brightness bit is set, no call can bring the display back to full brightness. */
  lemma {:induction false} BrightnessNeverReturnsToFull(function_: bv8, levels: seq<bv8>)
    requires function_ & 3 != BRT_100
    ensures Brightened(function_, levels) & 3 != BRT_100
  {
    if levels != [] {
      var last := levels[|levels| - 1];
      BrightnessNeverReturnsToFull(function_, levels[..|levels| - 1]);
      assert Brightened(function_, levels) == WithBrightness(Brightened(function_, levels[..|levels| - 1]), last);
    }
  }

  /** The function register after `setBrightness` with each of `levels` in turn. */
  function Brightened(function_: bv8, levels: seq<bv8>): bv8 {
    if levels == [] then function_
    else WithBrightness(Brightened(function_, levels[..|levels| - 1]), levels[|levels| - 1])
  }

  /** The command byte of `createChar`: SET_CGRAM_ADDR with `location & 7` in bits 3-5. */
  function CgramCommand(location: bv8): (p: bv8)
    ensures p & 0xC0 == SET_CGRAM_ADDR
    ensures (p >> 3) & 7 == location & 7
    ensures p & 7 == 0
  {
    SET_CGRAM_ADDR | ((location & 7) << 3)
  }

  /** The frames `createChar(location, glyph)` sends: the CGRAM address, then the eight glyph rows. */
  function CreateCharFrames(location: bv8, glyph: seq<bv8>): (fs: seq<Frame>)
    requires |glyph| >= 8
    ensures |fs| == 9
    ensures fs[0] == Frame(COMMAND, CgramCommand(location))
    ensures forall i :: 0 <= i < 8 ==> fs[i + 1] == Frame(DATA, glyph[i])
  {
    [Frame(COMMAND, CgramCommand(location))] + seq(8, i requires 0 <= i < 8 => Frame(DATA, glyph[i]))
  }

  /** Only `location mod 8` matters: locations that agree modulo 8 send identical frames. */
  lemma CreateCharLocationWraps(l1: bv8, l2: bv8, glyph: seq<bv8>)
    requires |glyph| >= 8
    requires l1 % 8 == l2 % 8
    ensures CreateCharFrames(l1, glyph) == CreateCharFrames(l2, glyph)
  {
    assert l1 & 7 == l2 & 7;
  }

  /** `createChar(9, glyph)` behaves as `createChar(1, glyph)`. */
  lemma CreateCharNineIsOne(glyph: seq<bv8>)
    requires |glyph| >= 8
    ensures CreateCharFrames(9, glyph) == CreateCharFrames(1, glyph)
  {
    CreateCharLocationWraps(9, 1, glyph);
  }
}
