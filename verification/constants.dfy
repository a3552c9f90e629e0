/**
 * The mode, opcode and flag bytes of the PT6314 vacuum-fluorescent display
 * controller, and the facts about their bit layout that the driver relies on
 * when it ORs flags into a register or clears them with an AND mask.
 */
module Constants {

  // Start bytes that open every frame: a command transfer or a data transfer.
  const COMMAND: bv8 := 0xF8
  const DATA: bv8 := 0xFA

  // Command opcodes: each is one bit, the highest set bit of its command byte.
  const CLEAR_DISPLAY: bv8 := 0x01
  const RETURN_HOME: bv8 := 0x02
  const ENTRY_MODE_SET: bv8 := 0x04
  const DISPLAY_CONTROL: bv8 := 0x08
  const CURSOR_SHIFT: bv8 := 0x10
  const FUNCTION_SET: bv8 := 0x20
  const SET_CGRAM_ADDR: bv8 := 0x40
  const SET_DDRAM_ADDR: bv8 := 0x80

  // Entry-mode flags.
  const DECREMENT: bv8 := 0x00
  const INCREMENT: bv8 := 0x02
  const DISPLAY_SHIFT_ENABLED: bv8 := 0x01
  const CURSOR_SHIFT_ENABLED: bv8 := 0x00

  // Display on/off control flags.
  const DISPLAY_ON: bv8 := 0x04
  const DISPLAY_OFF: bv8 := 0x00
  const CURSOR_ON: bv8 := 0x02
  const CURSOR_OFF: bv8 := 0x00
  const BLINK_ON: bv8 := 0x01
  const BLINK_OFF: bv8 := 0x00

  // Function-set flags: interface width, line count and the brightness code.
  const EIGHT_BIT_MODE: bv8 := 0x10
  const TWO_LINE: bv8 := 0x08
  const ONE_LINE: bv8 := 0x00
  const BRT_100: bv8 := 0x00
  const BRT_75: bv8 := 0x01
  const BRT_50: bv8 := 0x02
  const BRT_25: bv8 := 0x03

  /** The eight command opcodes, lowest first. */
  const OPCODES: seq<bv8> := [CLEAR_DISPLAY, RETURN_HOME, ENTRY_MODE_SET, DISPLAY_CONTROL,
                              CURSOR_SHIFT, FUNCTION_SET, SET_CGRAM_ADDR, SET_DDRAM_ADDR]

  /** Exactly one bit of `x` is set. */
  predicate IsSingleBit(x: bv8) {
    x != 0 && x & (x - 1) == 0
  }

  /** The two start bytes share the synchronisation prefix 11111 and differ only in bit 1. */
  lemma ModesDifferOnlyInBitOne()
    ensures COMMAND ^ DATA == 0x02
    ensures COMMAND & 0xF8 == 0xF8 && DATA & 0xF8 == 0xF8
  {
  }

  /** The opcodes are the eight single-bit bytes 0x01, 0x02, ..., 0x80 in order, hence distinct. */
  lemma OpcodesAreDistinctSingleBits()
    ensures |OPCODES| == 8
    ensures forall i :: 0 <= i < 8 ==> OPCODES[i] == 1 << i && IsSingleBit(OPCODES[i])
    ensures forall i, j :: 0 <= i < j < 8 ==> OPCODES[i] != OPCODES[j]
  {
  }

  /** The three control flags are disjoint single bits, all below the DISPLAY_CONTROL opcode bit. */
  lemma ControlFlagsAreDisjointSingleBits()
    ensures IsSingleBit(DISPLAY_ON) && IsSingleBit(CURSOR_ON) && IsSingleBit(BLINK_ON)
    ensures DISPLAY_ON & CURSOR_ON == 0 && DISPLAY_ON & BLINK_ON == 0 && CURSOR_ON & BLINK_ON == 0
    ensures DISPLAY_ON < DISPLAY_CONTROL && CURSOR_ON < DISPLAY_CONTROL && BLINK_ON < DISPLAY_CONTROL
  {
  }

  /** Setting or clearing a control flag never alters the DISPLAY_CONTROL opcode bit. */
  lemma ControlFlagEditKeepsOpcode(c: bv8, flag: bv8)
    requires flag == DISPLAY_ON || flag == CURSOR_ON || flag == BLINK_ON
    ensures (c | flag) & DISPLAY_CONTROL == c & DISPLAY_CONTROL
    ensures (c & !flag) & DISPLAY_CONTROL == c & DISPLAY_CONTROL
  {
  }

  /** The brightness codes use only bits 0-1, disjoint from TWO_LINE, EIGHT_BIT_MODE and FUNCTION_SET. */
  lemma BrightnessCodesUseLowBits()
    ensures BRT_100 & !3 == 0 && BRT_75 & !3 == 0 && BRT_50 & !3 == 0 && BRT_25 & !3 == 0
    ensures 3 & (TWO_LINE | EIGHT_BIT_MODE | FUNCTION_SET) == 0
  {
  }

  /** The "off" and default flags are zero, so OR-ing them into a register changes nothing. */
  lemma OffFlagsAreIdentity(x: bv8)
    ensures x | DISPLAY_OFF == x && x | CURSOR_OFF == x && x | BLINK_OFF == x
    ensures x | ONE_LINE == x && x | BRT_100 == x
    ensures x | CURSOR_SHIFT_ENABLED == x && x | DECREMENT == x
  {
  }

  /** The entry-mode flags lie below the ENTRY_MODE_SET opcode bit. */
  lemma EntryFlagsBelowOpcode()
    ensures INCREMENT < ENTRY_MODE_SET && DISPLAY_SHIFT_ENABLED < ENTRY_MODE_SET
    ensures (INCREMENT | DISPLAY_SHIFT_ENABLED) & ENTRY_MODE_SET == 0
  {
  }
}
