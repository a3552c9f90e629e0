/**
 * The PT6314 driver object: three pin bindings, the shadow copies of the
 * controller's function, display-control and entry-mode registers, and a log
 * of what the driver has done to the outside world: every pin-mode call, pin
 * write and delay, in order (`trace`).  Each method is proved against the
 * specification functions of modules Transport and Controller.
 */
module Driver {
  import opened Constants
  import opened Transport
  import opened Controller

  class Pt6314 {
    // The pin numbers bound by the constructor and `Init`.  Events name a line
    // by its role, so these fields appear only in those two contracts.
    var sckPin: bv8  // clock pin
    var stbPin: bv8  // strobe pin
    var siPin: bv8   // serial-input pin

    var displayFunction: bv8
    var displayControl: bv8
    var displayMode: bv8
    var numLines: bv8

    /** Every pin-mode call, pin write and delay the driver has made, oldest first. */
    var trace: seq<Event>

    /** The control register holds the DISPLAY_CONTROL opcode and nothing but control flags. */
    predicate ControlWellFormed()
      reads this
    {
      IsControlByte(displayControl)
    }

    /** The function register holds FUNCTION_SET | 8BITMODE and nothing but line-count and brightness bits. */
    predicate FunctionWellFormed()
      reads this
    {
      IsFunctionByte(displayFunction)
    }

    /** The entry-mode register is ENTRYMODESET | INCREMENT, as `begin` leaves it. */
    predicate ModeWellFormed()
      reads this
    {
      displayMode == BEGIN_MODE
    }

    /** All three registers carry their opcode: each frame sending one is a valid command. */
    predicate Begun()
      reads this
    {
      ControlWellFormed() && FunctionWellFormed() && ModeWellFormed()
    }

    constructor (sck: bv8, stb: bv8, si: bv8)
      ensures sckPin == sck && stbPin == stb && siPin == si
      ensures displayFunction == INIT_FUNCTION && FunctionWellFormed()
      ensures trace == [OutputMode(Clock), OutputMode(Strobe), OutputMode(SerialIn)]
    {
      trace := [];
      new;
      Init(sck, stb, si);
    }

    /** Binds the three pins, makes them outputs and resets the function register. */
    method Init(sck: bv8, stb: bv8, si: bv8)
      modifies this`sckPin, this`stbPin, this`siPin, this`displayFunction, this`trace
      ensures sckPin == sck && stbPin == stb && siPin == si
      ensures displayFunction == INIT_FUNCTION && FunctionWellFormed()
      ensures trace == old(trace) + [OutputMode(Clock), OutputMode(Strobe), OutputMode(SerialIn)]
    {
      sckPin := sck;
      stbPin := stb;
      siPin := si;
      PinModeOutput(Clock);
      PinModeOutput(Strobe);
      PinModeOutput(SerialIn);
      displayFunction := FUNCTION_SET | EIGHT_BIT_MODE | ONE_LINE | BRT_100;
    }

    /** Sets the line count and the three registers, then runs the power-up transfers. */
    method Begin(cols: bv8, rows: bv8)
      modifies this`numLines, this`displayFunction, this`displayControl, this`displayMode, this`trace
      ensures numLines == rows
      ensures displayFunction == BeginFunction(old(displayFunction), rows)
      ensures displayControl == BEGIN_CONTROL && displayMode == BEGIN_MODE
      ensures old(FunctionWellFormed()) ==> Begun()
      ensures trace == old(trace) + [Delay(POWER_ON_WAIT)]
                       + PacedEvents(BeginFrames(displayControl, displayMode, displayFunction), BEGIN_WAITS)
    {
      numLines := rows;
      if numLines > 1 {
        displayFunction := displayFunction | TWO_LINE;
      }
      displayControl := DISPLAY_CONTROL | DISPLAY_ON | CURSOR_OFF | BLINK_OFF;
      displayMode := ENTRY_MODE_SET | INCREMENT | CURSOR_SHIFT_ENABLED;
      assert displayFunction == BeginFunction(old(displayFunction), rows);
      BeginKeepsFunctionByte(old(displayFunction), rows);
      WellFormedBytesDecode(displayControl);
      PowerUp();
    }

    /**
     * The transfers of `begin`: a 50 ms wait, then CLEAR DISPLAY and the control,
     * entry-mode and function registers as they now stand, each followed by its
     * settling wait.  This is the second half of `begin`, kept as a method
     * of its own so that each proof stays small; the source has no separate
     * function for it.
     */
    method PowerUp()
      modifies this`trace
      ensures trace == old(trace) + [Delay(POWER_ON_WAIT)]
                       + PacedEvents(BeginFrames(displayControl, displayMode, displayFunction), BEGIN_WAITS)
    {
      DelayMicroseconds(50000);
      ghost var start := trace;
      Send(COMMAND, CLEAR_DISPLAY);
      DelayMicroseconds(2000);
      Send(COMMAND, displayControl);
      DelayMicroseconds(4500);
      Send(COMMAND, displayMode);
      DelayMicroseconds(4500);
      Send(COMMAND, displayFunction);
      DelayMicroseconds(4500);
      BeginSequence(start, displayControl, displayMode, displayFunction);
    }

    // The I/O collaborator: each primitive only records its event.

    method PinModeOutput(line: Line)
      modifies this`trace
      ensures trace == old(trace) + [OutputMode(line)]
    {
      trace := trace + [OutputMode(line)];
    }

    method DigitalWrite(line: Line, high: bool)
      modifies this`trace
      ensures trace == old(trace) + [Drive(line, high)]
    {
      trace := trace + [Drive(line, high)];
    }

    method DelayMicroseconds(us: nat)
      modifies this`trace
      ensures trace == old(trace) + [Delay(us)]
    {
      trace := trace + [Delay(us)];
    }

    /** Transfers one frame: strobe low, bits 15..0 of `value | (mode << 8)` each clocked in, strobe high. */
    method Send(mode: bv8, value: bv8)
      modifies this`trace
      ensures trace == old(trace) + SendEvents(Frame(mode, value))
    {
      var fullPayload := Word(Frame(mode, value));
      ghost var bits := MsbBits(fullPayload);
      DigitalWrite(Strobe, false);
      DelayMicroseconds(1);
      DigitalWrite(Clock, false);
      ghost var start := trace;
      assert start == old(trace) + OPENING;
      var i: int := 15;
      while i > -1
        invariant -1 <= i <= 15
        invariant trace == start + Shift(bits[..15 - i])
      {
        ghost var before := trace;
        ghost var n := 15 - i;
        DigitalWrite(SerialIn, Bit(fullPayload, i));
        ClockPulse();
        ShiftLoopStep(start, before, bits, n);
        i := i - 1;
        assert 15 - i == n + 1;
      }
      assert bits[..16] == bits;
      ghost var shifted := trace;
      DigitalWrite(Clock, true);
      DigitalWrite(Strobe, true);
      DelayMicroseconds(1);
      assert trace == shifted + CLOSING;
      SendAssembled(old(trace), Frame(mode, value));
    }

    /** One clock pulse: 2 us, clock high, 2 us, clock low. */
    method ClockPulse()
      modifies this`trace
      ensures trace == old(trace) + PULSE
    {
      DelayMicroseconds(2);
      DigitalWrite(Clock, true);
      DelayMicroseconds(2);
      DigitalWrite(Clock, false);
    }

    /** Sends CLEAR DISPLAY and waits 2000 us. */
    method Clear()
      modifies this`trace
      ensures trace == old(trace) + SendEvents(Frame(COMMAND, CLEAR_DISPLAY)) + [Delay(2000)]
    {
      Send(COMMAND, CLEAR_DISPLAY);
      DelayMicroseconds(2000);
    }

    /** Sends RETURN HOME. */
    method Home()
      modifies this`trace
      ensures trace == old(trace) + SendEvents(Frame(COMMAND, RETURN_HOME))
    {
      Send(COMMAND, RETURN_HOME);
    }

    /** Clears DISPLAY_ON and sends the whole control register. */
    method NoDisplay()
      modifies this`displayControl, this`trace
      ensures displayControl == WithFlag(old(displayControl), DISPLAY_ON, false)
      ensures old(ControlWellFormed()) ==> ControlWellFormed()
      ensures trace == old(trace) + SendEvents(Frame(COMMAND, displayControl))
    {
      displayControl := displayControl & !DISPLAY_ON;
      ControlEditKeepsControlByte(old(displayControl), DISPLAY_ON, false);
      Send(COMMAND, displayControl);
    }

    /** Sets DISPLAY_ON and sends the whole control register. */
    method Display()
      modifies this`displayControl, this`trace
      ensures displayControl == WithFlag(old(displayControl), DISPLAY_ON, true)
      ensures old(ControlWellFormed()) ==> ControlWellFormed()
      ensures trace == old(trace) + SendEvents(Frame(COMMAND, displayControl))
    {
      displayControl := displayControl | DISPLAY_ON;
      ControlEditKeepsControlByte(old(displayControl), DISPLAY_ON, true);
      Send(COMMAND, displayControl);
    }

    /** Clears CURSOR_ON and sends the whole control register. */
    method NoCursor()
      modifies this`displayControl, this`trace
      ensures displayControl == WithFlag(old(displayControl), CURSOR_ON, false)
      ensures old(ControlWellFormed()) ==> ControlWellFormed()
      ensures trace == old(trace) + SendEvents(Frame(COMMAND, displayControl))
    {
      displayControl := displayControl & !CURSOR_ON;
      ControlEditKeepsControlByte(old(displayControl), CURSOR_ON, false);
      Send(COMMAND, displayControl);
    }

    /** Sets CURSOR_ON and sends the whole control register. */
    method Cursor()
      modifies this`displayControl, this`trace
      ensures displayControl == WithFlag(old(displayControl), CURSOR_ON, true)
      ensures old(ControlWellFormed()) ==> ControlWellFormed()
      ensures trace == old(trace) + SendEvents(Frame(COMMAND, displayControl))
    {
      displayControl := displayControl | CURSOR_ON;
      ControlEditKeepsControlByte(old(displayControl), CURSOR_ON, true);
      Send(COMMAND, displayControl);
    }

    /** Clears BLINK_ON and sends the whole control register. */
    method NoBlink()
      modifies this`displayControl, this`trace
      ensures displayControl == WithFlag(old(displayControl), BLINK_ON, false)
      ensures old(ControlWellFormed()) ==> ControlWellFormed()
      ensures trace == old(trace) + SendEvents(Frame(COMMAND, displayControl))
    {
      displayControl := displayControl & !BLINK_ON;
      ControlEditKeepsControlByte(old(displayControl), BLINK_ON, false);
      Send(COMMAND, displayControl);
    }

    /** Sets BLINK_ON and sends the whole control register. */
    method Blink()
      modifies this`displayControl, this`trace
      ensures displayControl == WithFlag(old(displayControl), BLINK_ON, true)
      ensures old(ControlWellFormed()) ==> ControlWellFormed()
      ensures trace == old(trace) + SendEvents(Frame(COMMAND, displayControl))
    {
      displayControl := displayControl | BLINK_ON;
      ControlEditKeepsControlByte(old(displayControl), BLINK_ON, true);
      Send(COMMAND, displayControl);
    }

    /** Sends SET_DDRAM_ADDR ORed onto `col`, plus 0x40 when `row > 0`. */
    method SetCursor(col: bv8, row: bv8)
      modifies this`trace
      ensures trace == old(trace) + SendEvents(Frame(COMMAND, SetCursorCommand(col, row)))
    {
      var position := col;
      if row > 0 {
        position := position + 0x40;
      }
      Send(COMMAND, SET_DDRAM_ADDR | position);
    }

    /** ORs the brightness code for `brt` into the function register and sends it. */
    method SetBrightness(brt: bv8)
      modifies this`displayFunction, this`trace
      ensures displayFunction == WithBrightness(old(displayFunction), brt)
      ensures old(FunctionWellFormed()) ==> FunctionWellFormed()
      ensures trace == old(trace) + SendEvents(Frame(COMMAND, displayFunction))
    {
      match brt {
        case 100 => displayFunction := displayFunction | BRT_100;
        case 75 => displayFunction := displayFunction | BRT_75;
        case 50 => displayFunction := displayFunction | BRT_50;
        case 25 => displayFunction := displayFunction | BRT_25;
        case _ =>
      }
      assert displayFunction == WithBrightness(old(displayFunction), brt);
      BrightnessKeepsFunctionByte(old(displayFunction), brt);
      Send(COMMAND, displayFunction);
    }

    /** Sends `value` as a data frame and reports one byte written. */
    method Write(value: bv8) returns (n: nat)
      modifies this`trace
      ensures n == 1
      ensures trace == old(trace) + SendEvents(Frame(DATA, value))
    {
      Send(DATA, value);
      n := 1;
    }

    /** Stores an 8-row glyph in CGRAM slot `location & 7`: the address command, then eight data frames. */
    method CreateChar(location: bv8, charmap: array<bv8>)
      requires charmap.Length >= 8
      modifies this`trace
      ensures trace == old(trace) + FramesEvents(CreateCharFrames(location, charmap[..]))
    {
      ghost var fs := CreateCharFrames(location, charmap[..]);
      var loc := location & 0x7;
      assert fs[..0] == [];
      ghost var before := trace;
      Send(COMMAND, SET_CGRAM_ADDR | (loc << 3));
      FramesStep(old(trace), before, fs, 0);
      for i := 0 to 8
        invariant trace == old(trace) + FramesEvents(fs[..i + 1])
      {
        before := trace;
        Send(DATA, charmap[i]);
        FramesStep(old(trace), before, fs, i + 1);
      }
      assert fs[..9] == fs;
    }
  }
}
