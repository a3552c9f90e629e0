# PT6314 VFD driver — a Dafny model

This project models the Arduino driver for the PT6314 vacuum-fluorescent
display controller (`PT6314.cpp`, `PT6314.h`). The driver talks to the
controller over three output lines: a serial clock, a strobe (latch) and a
serial data input. Every transfer is one 16-bit frame. Its high byte is a
start byte: `0xF8` for a command, `0xFA` for data. Its low byte is the
instruction or the data byte. The bits go out most-significant first, one
clock pulse per bit, with the strobe held low for the whole frame. On top of
that transport the driver keeps shadow copies of three write-only controller
registers. These are function set, display control and entry mode. It
rewrites a register's flag bits and sends the whole register again.

The model has four modules, following the layers of the driver:

- `Constants` (`constants.dfy`): the mode bytes, opcodes and flag bytes of
  `PT6314.h`, with lemmas about their bit layout. The OR and AND-NOT register
  edits rely on that layout.
- `Transport` (`transport.dfy`): the wire level, as pure specification.
  - A `Frame` is a start byte and a payload byte.
  - `Word` is the 16-bit word `value | (mode << 8)`, and `MsbBits` lists its bits, bit 15 first.
  - `SendEvents` is the exact sequence of line writes and delays that one `send` emits.
  - `FramesEvents` and `PacedEvents` describe runs of transfers, without and with a wait after each.
  - `DataWrites` lists the levels written to the data line, and `FrameFromBits` decodes sixteen of them into a frame.
- `Controller` (`controller.dfy`): the register arithmetic of each public
  operation, as pure specification functions. These cover flag edits, the
  line-count rule of `begin`, the cursor address, brightness codes and the
  CGRAM address of `createChar`.
- `Driver` (`driver.dfy`): the class `Pt6314`. It holds the pin numbers, the
  three shadow registers and the cached row count (as `bv8`), and `trace`, a log of every
  `pinMode`, `digitalWrite` and `delayMicroseconds` call, in order. Each
  method updates the registers in place, as the C++ does. Each method is
  proved against the specification functions: its `ensures` gives the new
  registers and the exact events it appends to `trace`.

Events name a line by its role (`Clock`, `Strobe`, `SerialIn`), not by its
pin number. The pin numbers are kept in fields. A delay is an event that
records its length in microseconds.

Behaviour of the code worth noting:

- `createChar` sends the CGRAM address command and then the eight data
  frames, and nothing more (`PT6314.cpp:197-205`).
- After each frame, `send` leaves the clock line high (`PT6314.cpp:70`).
  That closing clock-high is a 17th rising clock edge, raised while the
  strobe is still low (`PT6314.cpp:70-71`), and the data line then still
  carries bit 0 of the word. The proved decoding statements are about the
  16 levels written to the data line, not about what a device samples at
  each clock edge.
- `setCursor` ORs `0x80` onto the address (`PT6314.cpp:161`). So
  `setCursor(5, 1)` sends the command byte `0xC5`, whose address bits are `0x45`.
- `setBrightness` ORs the brightness code into the function register
  without clearing the old code first (`PT6314.cpp:168-182`). Codes
  therefore accumulate: 75% followed by 50% leaves code 3 (25%). No
  sequence of `setBrightness` calls restores 100% once a brightness bit is
  set. Only `init` does, by resetting the register to `0x30`
  (`PT6314.cpp:29`); that also drops TWO_LINE and sends nothing.

## Model

| member | source | states |
|---|---|---|
| Constants.ModesDifferOnlyInBitOne | PT6314.h:7-8 | the command and data start bytes share the prefix 11111 and differ only in bit 1 |
| Constants.OpcodesAreDistinctSingleBits | PT6314.h:12-19 | the eight opcodes are the single-bit bytes 1 << 0 .. 1 << 7 in order, hence pairwise distinct |
| Constants.ControlFlagsAreDisjointSingleBits | PT6314.h:28-33 | DISPLAYON, CURSORON and BLINKON are pairwise disjoint single bits below the DISPLAYCONTROL opcode |
| Constants.ControlFlagEditKeepsOpcode | PT6314.h:28-33 | setting or clearing any control flag never changes the DISPLAYCONTROL opcode bit |
| Constants.BrightnessCodesUseLowBits | PT6314.h:42-49 | every brightness code lies in bits 0-1, disjoint from 2LINE, 8BITMODE and FUNCTIONSET |
| Constants.OffFlagsAreIdentity | PT6314.h:22-46 | the zero-valued flags (OFF, 1LINE, BRT_100, DECREMENT, CURSORSHIFTENABLED) leave any register unchanged when ORed in |
| Constants.EntryFlagsBelowOpcode | PT6314.h:14-25 | the entry-mode flags lie below, and are disjoint from, the ENTRYMODESET opcode bit |
| Transport.Word | PT6314.cpp:61 | the payload word's high byte is the start byte and its low byte is the payload byte |
| Transport.BitIsMaskTest | PT6314.cpp:67 | `Transport.Bit`, the model of `bitRead(w, i)`, is true exactly when the word has bit `i` set under the mask `1 << i` |
| Transport.SendEvents | PT6314.cpp:59-73 | the events of one `send` call: strobe low, 1 us, clock low, one data write and clock pulse per bit 15..0, clock high, strobe high, 1 us; `Transport.SendShape` and `Transport.SendDecodes` state its properties |
| Transport.FrameBitsAreModeThenValue | PT6314.cpp:61-69 | the 16 bits shifted out, bit 15 first, are the start byte's 8 bits followed by the payload's 8 bits, each MSB first |
| Transport.ByteRoundTrip | PT6314.cpp:65-67 | reading a byte's 8 bits MSB first gives back the byte |
| Transport.FrameRoundTrip | PT6314.cpp:61-69 | reading a frame's 16 bits as start byte then payload gives back the frame |
| Transport.ShiftData | PT6314.cpp:65-69 | the shifting loop writes exactly the given bits to the data line, in order, and nothing else |
| Transport.SendDataIsWordMsbFirst | PT6314.cpp:59-73 | across one whole `send`, the data line carries bits 15..0 of the word, which are the start byte then the payload, MSB first |
| Transport.SendDecodes | PT6314.cpp:59-73 | the 16 levels written to the data line during one `send` decode to exactly the frame that was sent |
| Transport.ClosingEdge | PT6314.cpp:67-71 | the closing clock-high of a `send` is a 17th rising clock edge: it follows the last pulse's clock-low, comes before the strobe rises (the strobe is low from the first event until then), and the data line still holds bit 0 of the word |
| Transport.FramesDataBits | PT6314.cpp:197-205 | a run of `send` calls carries every frame's bits, frame after frame, in the order sent |
| Transport.PacedDataBits | PT6314.cpp:44-53 | the waits between transfers add no data bits: a paced run carries the same bits as the frames alone |
| Transport.ShiftShape | PT6314.cpp:65-82 | loop iteration k is one data write carrying bit k followed by exactly one clock pulse (2 us, clock high, 2 us, clock low), and the loop never touches the strobe |
| Transport.SendShape | PT6314.cpp:59-82 | one `send` is 86 events: strobe low, 1 us, clock low, then for each bit 15..0 a data write and one clock pulse, then clock high, strobe high, 1 us; the strobe is written only first and second-to-last |
| Driver.Pt6314.constructor | PT6314.cpp:14-17 | binds the three pins, makes them outputs in the order clock, strobe, data, and sets the function register to 0x30 |
| Driver.Pt6314.Init | PT6314.cpp:19-30 | binds the pins, appends the three output-mode events and resets the function register to a well-formed 0x30, touching no other register |
| Driver.Pt6314.Begin | PT6314.cpp:32-54 | records `rows`, ORs TWO_LINE in exactly when rows > 1, sets control 0x0C and entry mode 0x06, keeps all registers well formed, and appends the 50 ms wait then CLEAR, control, mode and function frames each followed by its wait |
| Driver.Pt6314.PowerUp | PT6314.cpp:44-53 | the second half of `begin` (a helper with no counterpart of its own in the source): the transfers of `begin`, the paced run of its four frames with waits 2000, 4500, 4500, 4500 us after a 50000 us wait, changing no register |
| Driver.Pt6314.PinModeOutput | PT6314.cpp:25-27 | configuring a line appends one output-mode event and nothing else |
| Driver.Pt6314.DigitalWrite | PT6314.cpp:62-70 | driving a line appends one write event with that level and nothing else |
| Driver.Pt6314.DelayMicroseconds | PT6314.cpp:44-53 | a delay appends one wait event of that length and nothing else |
| Driver.Pt6314.Send | PT6314.cpp:59-73 | appends exactly the events of one transfer of `Frame(mode, value)` and changes no register |
| Driver.Pt6314.ClockPulse | PT6314.cpp:76-82 | appends 2 us, clock high, 2 us, clock low |
| Driver.Pt6314.Clear | PT6314.cpp:93-97 | sends the CLEAR DISPLAY command frame, then waits 2000 us; no register changes |
| Driver.Pt6314.Home | PT6314.cpp:105-108 | sends the RETURN HOME command frame and nothing else; no register changes |
| Driver.Pt6314.NoDisplay | PT6314.cpp:112-116 | clears DISPLAY_ON, keeps every other control bit and the control byte well formed, and sends the whole new control register as one command frame |
| Driver.Pt6314.Display | PT6314.cpp:119-123 | sets DISPLAY_ON, keeps every other control bit and the control byte well formed, and sends the new control register |
| Driver.Pt6314.NoCursor | PT6314.cpp:126-130 | clears CURSOR_ON, keeps every other control bit and the control byte well formed, and sends the new control register |
| Driver.Pt6314.Cursor | PT6314.cpp:133-137 | sets CURSOR_ON, keeps every other control bit and the control byte well formed, and sends the new control register |
| Driver.Pt6314.NoBlink | PT6314.cpp:140-144 | clears BLINK_ON, keeps every other control bit and the control byte well formed, and sends the new control register |
| Driver.Pt6314.Blink | PT6314.cpp:147-151 | sets BLINK_ON, keeps every other control bit and the control byte well formed, and sends the new control register |
| Driver.Pt6314.SetCursor | PT6314.cpp:154-162 | sends one command frame whose byte is SET_DDRAM_ADDR over the 8-bit address col (+0x40 when row > 0); no register changes |
| Driver.Pt6314.SetBrightness | PT6314.cpp:166-184 | ORs in the code for 100/75/50/25 (no change for any other value), keeps the function byte well formed, and sends the whole function register |
| Driver.Pt6314.Write | PT6314.cpp:187-191 | sends `value` as one data frame and returns 1 |
| Driver.Pt6314.CreateChar | PT6314.cpp:197-205 | sends the CGRAM address command for `location & 7`, then `charmap[0..7]` as eight data frames, in order |
| Controller.RegisterDefaults | PT6314.cpp:29-42 | the initial registers are 0x30 (8-bit, one line, full brightness), 0x0C (display on, cursor and blink off) and 0x06 (increment, no display shift) |
| Controller.WellFormedBytesDecode | PT6314.h:15-45 | a well-formed control byte decodes as DISPLAY CONTROL and a well-formed function byte as FUNCTION SET with the 8-bit flag; the defaults are well formed |
| Controller.WithFlag | PT6314.cpp:112-151 | after a flag edit the flag's bits are exactly set (or exactly clear) and every bit outside the flag is as before |
| Controller.WithFlagKeepsOtherFlag | PT6314.cpp:112-151 | editing one flag leaves any disjoint flag exactly as it was |
| Controller.ControlEditKeepsControlByte | PT6314.cpp:112-151 | a control-flag edit keeps a well-formed control byte well formed |
| Controller.CursorBlinkNoCursor | PT6314.cpp:126-151 | `cursor(); blink(); noCursor()` leaves blink on, cursor off and the rest of the register unchanged |
| Controller.BeginFunction | PT6314.cpp:34-38 | TWO_LINE is set after `begin` when rows > 1 and otherwise kept as it was; no other function bit changes |
| Controller.BeginKeepsFunctionByte | PT6314.cpp:34-38 | `begin` keeps a well-formed function byte well formed |
| Controller.BeginLineCount | PT6314.cpp:29-38 | from 0x30, `begin(16, 2)` gives 0x38, `begin(16, 1)` gives 0x30, and TWO_LINE ends up set if and only if rows > 1 |
| Controller.BeginFrames | PT6314.cpp:46-52 | `begin` sends four command frames, one per settling wait |
| Controller.BeginSequence | PT6314.cpp:44-53 | the four transfers and waits of `begin`, call by call, are the paced run of clear, control, mode and function with waits 2000, 4500, 4500, 4500 us |
| Controller.DdramAddress | PT6314.cpp:156-160 | the address is (col + (0x40 if row > 0 else 0)) mod 256 |
| Controller.SetCursorCommand | PT6314.cpp:161 | the command byte always has the SET_DDRAM_ADDR bit and carries the address in its other bits |
| Controller.SetCursorExamples | PT6314.cpp:154-162 | setCursor(5, 1) addresses 0x45 and sends 0xC5; setCursor(5, 0) addresses 0x05 and sends 0x85 |
| Controller.BrightnessCode | PT6314.cpp:168-182 | a code exists if and only if brt is 100, 75, 50 or 25; the code lies in bits 0-1 and equals (100 - brt) / 25 |
| Controller.WithBrightness | PT6314.cpp:166-182 | the new register keeps every old bit, changes nothing outside bits 0-1, ORs the code into bits 0-1, and is unchanged for 100 or an unknown level |
| Controller.BrightnessKeepsFunctionByte | PT6314.cpp:166-182 | a brightness change keeps a well-formed function byte well formed |
| Controller.BrightnessAccumulates | PT6314.cpp:166-182 | from full brightness, 75 then 50 leaves code 3 (25%), and so does 100 then 25 |
| Controller.BrightnessNeverReturnsToFull | PT6314.cpp:166-182 | once a brightness bit is set, no sequence of `setBrightness` calls brings the code back to BRT_100 |
| Controller.CgramCommand | PT6314.cpp:199-200 | the command byte has opcode SET_CGRAM_ADDR in its top two bits, `location & 7` in bits 3-5 and zero in bits 0-2 |
| Controller.CreateCharFrames | PT6314.cpp:197-205 | `createChar` sends nine frames: the CGRAM address command, then glyph rows 0..7 as data frames |
| Controller.CreateCharLocationWraps | PT6314.cpp:199 | locations equal modulo 8 send identical frames |
| Controller.CreateCharNineIsOne | PT6314.cpp:199 | `createChar(9, g)` sends the same frames as `createChar(1, g)` |

## Left out

- Arduino I/O (`pinMode`, `digitalWrite`, `delayMicroseconds`) is recorded as events in `trace`. The model gives these no timing or electrical meaning. A delay is only its length, and a write names the line role, not the pin number.
- The `Print` base class and the inherited `write` overloads for strings and buffers (`PT6314.h:51`, `PT6314.h:73`) are not part of this model. Only the single-byte `write` is modelled.
- `write` is declared `inline` in the source file while being virtual. That is a linkage matter and has no counterpart here.
- The `cols` argument of `begin` is unused by the driver, and unused in the model too.
- The control and entry-mode registers are not initialised by the constructor. The model leaves them arbitrary until `Begin`, as the C++ does.
- Constants that no operation uses are not declared: `CHAR_DATA`, the cursor-shift flags (`DISPLAYMOVE`, `CURSORMOVE`, `MOVERIGHT`, `MOVELEFT`) and `4BITMODE`.
- Concurrency and interrupts: the driver is single-threaded and the model has none.
- `charmap` must hold at least eight bytes (`Driver.Pt6314.CreateChar` requires it). In C++, reading past a shorter buffer is undefined behaviour, so there is nothing to model there.
- `int full_payload` (`PT6314.cpp:61`) is modelled as a `bv16`. On targets with a 16-bit `int`, `value | (mode << 8)` exceeds `INT16_MAX` and becomes negative when converted to `int`. `bitRead` still reads the same 16 bits, so the bits sent are unchanged and nothing is lost by the model.
