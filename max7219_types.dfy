/** Register addresses, glyph patterns and register settings of the MAX7219
    eight-digit LED driver, as the driver names them. */
module Max7219 {

  // ---------------------------------------------------------------- registers

  /** Register used when cascading several chips: writes to it do nothing. */
  const REG_NO_OP: bv8 := 0x00

  const REG_DIGIT_0: bv8 := 0x01  // rightmost digit
  const REG_DIGIT_1: bv8 := 0x02
  const REG_DIGIT_2: bv8 := 0x03
  const REG_DIGIT_3: bv8 := 0x04
  const REG_DIGIT_4: bv8 := 0x05
  const REG_DIGIT_5: bv8 := 0x06
  const REG_DIGIT_6: bv8 := 0x07
  const REG_DIGIT_7: bv8 := 0x08  // leftmost digit

  const REG_DECODE_MODE: bv8 := 0x09
  const REG_INTENSITY: bv8 := 0x0A
  const REG_SCAN_LIMIT: bv8 := 0x0B
  const REG_SHUTDOWN: bv8 := 0x0C
  const REG_DISPLAY_TEST: bv8 := 0x0F

  /** The digit registers, position k holding the register of digit k. */
  const DIGIT_REGISTERS: seq<bv8> :=
    [REG_DIGIT_0, REG_DIGIT_1, REG_DIGIT_2, REG_DIGIT_3,
     REG_DIGIT_4, REG_DIGIT_5, REG_DIGIT_6, REG_DIGIT_7]

  const CONTROL_REGISTERS: seq<bv8> :=
    [REG_DECODE_MODE, REG_INTENSITY, REG_SCAN_LIMIT, REG_SHUTDOWN, REG_DISPLAY_TEST]

  /** The register of digit k: digit registers are consecutive from 1. */
  function DigitRegister(k: nat): (r: bv8)
    requires k < 8
    ensures r as int == k + 1
    ensures r != REG_NO_OP && r !in CONTROL_REGISTERS
  {
    DIGIT_REGISTERS[k]
  }

  /** No control register aliases NO_OP, a digit register or another control register. */
  lemma ControlRegistersDistinct()
    ensures forall i :: 0 <= i < |CONTROL_REGISTERS| ==>
      CONTROL_REGISTERS[i] != REG_NO_OP && CONTROL_REGISTERS[i] !in DIGIT_REGISTERS
    ensures forall i, j :: 0 <= i < j < |CONTROL_REGISTERS| ==> CONTROL_REGISTERS[i] != CONTROL_REGISTERS[j]
  {
  }

  // ------------------------------------------------------------------ glyphs
  // Segment patterns: bit 7 is the decimal point, bits 6..0 segments A..G.

  const CHAR_ZERO: bv8 := 0x7E
  const CHAR_ONE: bv8 := 0x30
  const CHAR_TWO: bv8 := 0x6D
  const CHAR_THREE: bv8 := 0x79
  const CHAR_FOUR: bv8 := 0x33
  const CHAR_FIVE: bv8 := 0x5B
  const CHAR_SIX: bv8 := 0x5F
  const CHAR_SEVEN: bv8 := 0x70
  const CHAR_EIGHT: bv8 := 0x7F
  const CHAR_NINE: bv8 := 0x7B

  const CHAR_A: bv8 := 0x77
  const CHAR_B_UPPER: bv8 := 0x7F
  const CHAR_B_LOWER: bv8 := 0x1F
  const CHAR_C_UPPER: bv8 := 0x4E
  const CHAR_C_LOWER: bv8 := 0x0D
  const CHAR_D: bv8 := 0x3D
  const CHAR_E: bv8 := 0x4F
  const CHAR_F: bv8 := 0x47
  const CHAR_G_UPPER: bv8 := 0x5E
  const CHAR_G_LOWER: bv8 := 0x7B
  const CHAR_H_UPPER: bv8 := 0x37
  const CHAR_H_LOWER: bv8 := 0x17
  const CHAR_I_UPPER: bv8 := 0x30
  const CHAR_I_LOWER: bv8 := 0x50
  const CHAR_J_UPPER: bv8 := 0x78
  const CHAR_J_LOWER: bv8 := 0x58
  const CHAR_L_UPPER: bv8 := 0x0E
  const CHAR_L_LOWER: bv8 := 0x06
  const CHAR_N_UPPER: bv8 := 0x76
  const CHAR_N_LOWER: bv8 := 0x15
  const CHAR_O_UPPER: bv8 := 0x7E
  const CHAR_O_LOWER: bv8 := 0x1D
  const CHAR_P: bv8 := 0x67
  const CHAR_Q: bv8 := 0x73
  const CHAR_R: bv8 := 0x05
  const CHAR_S: bv8 := 0x5B
  const CHAR_T: bv8 := 0x0F
  const CHAR_U_UPPER: bv8 := 0x3E
  const CHAR_U_LOWER: bv8 := 0x1C
  const CHAR_Y: bv8 := 0x33

  const CHAR_EMPTY: bv8 := 0x00
  const CHAR_SPACE: bv8 := 0x00
  const CHAR_COMMA: bv8 := 0x80
  const CHAR_DOT: bv8 := 0x80
  const CHAR_MINUS: bv8 := 0x01
  const CHAR_HYPHEN: bv8 := 0x01
  const CHAR_LOW_LINE: bv8 := 0x08
  const CHAR_QUOTATION_MARK: bv8 := 0x22
  const CHAR_APOSTROPHE: bv8 := 0x02
  const CHAR_EQUAL_SIGN: bv8 := 0x09

  /** Every glyph of the table except DOT and COMMA leaves the decimal-point
      bit (0x80) clear. */
  lemma SegmentGlyphsBelowDot()
    ensures CHAR_ZERO < CHAR_DOT && CHAR_ONE < CHAR_DOT && CHAR_TWO < CHAR_DOT && CHAR_THREE < CHAR_DOT && CHAR_FOUR < CHAR_DOT
    ensures CHAR_FIVE < CHAR_DOT && CHAR_SIX < CHAR_DOT && CHAR_SEVEN < CHAR_DOT && CHAR_EIGHT < CHAR_DOT && CHAR_NINE < CHAR_DOT
    ensures CHAR_A < CHAR_DOT && CHAR_B_UPPER < CHAR_DOT && CHAR_B_LOWER < CHAR_DOT && CHAR_C_UPPER < CHAR_DOT && CHAR_C_LOWER < CHAR_DOT
    ensures CHAR_D < CHAR_DOT && CHAR_E < CHAR_DOT && CHAR_F < CHAR_DOT && CHAR_G_UPPER < CHAR_DOT && CHAR_G_LOWER < CHAR_DOT
    ensures CHAR_H_UPPER < CHAR_DOT && CHAR_H_LOWER < CHAR_DOT && CHAR_I_UPPER < CHAR_DOT && CHAR_I_LOWER < CHAR_DOT && CHAR_J_UPPER < CHAR_DOT
    ensures CHAR_J_LOWER < CHAR_DOT && CHAR_L_UPPER < CHAR_DOT && CHAR_L_LOWER < CHAR_DOT && CHAR_N_UPPER < CHAR_DOT && CHAR_N_LOWER < CHAR_DOT
    ensures CHAR_O_UPPER < CHAR_DOT && CHAR_O_LOWER < CHAR_DOT && CHAR_P < CHAR_DOT && CHAR_Q < CHAR_DOT && CHAR_R < CHAR_DOT
    ensures CHAR_S < CHAR_DOT && CHAR_T < CHAR_DOT && CHAR_U_UPPER < CHAR_DOT && CHAR_U_LOWER < CHAR_DOT && CHAR_Y < CHAR_DOT
    ensures CHAR_EMPTY < CHAR_DOT && CHAR_SPACE < CHAR_DOT && CHAR_MINUS < CHAR_DOT && CHAR_HYPHEN < CHAR_DOT && CHAR_LOW_LINE < CHAR_DOT
    ensures CHAR_QUOTATION_MARK < CHAR_DOT && CHAR_APOSTROPHE < CHAR_DOT && CHAR_EQUAL_SIGN < CHAR_DOT
    ensures CHAR_DOT == CHAR_COMMA == 0x80
  {
  }

  /** OR-ing CHAR_DOT into a segment glyph sets only the decimal point, and
      masking with 0x7F gives the glyph back. */
  lemma DotSetsOnlyDecimalPoint(g: bv8)
    requires g < CHAR_DOT
    ensures (g | CHAR_DOT) & 0x7F == g
    ensures (g | CHAR_DOT) & CHAR_DOT == CHAR_DOT
    ensures (g | CHAR_DOT) as int == g as int + 128
  {
  }

  /** The glyph table is not injective: these character pairs light the same
      segments and cannot be told apart on the display. */
  lemma GlyphCollisions()
    ensures CHAR_EIGHT == CHAR_B_UPPER == 0x7F
    ensures CHAR_ZERO == CHAR_O_UPPER == 0x7E
    ensures CHAR_ONE == CHAR_I_UPPER == 0x30
    ensures CHAR_FIVE == CHAR_S == 0x5B
    ensures CHAR_NINE == CHAR_G_LOWER == 0x7B
    ensures CHAR_FOUR == CHAR_Y == 0x33
    ensures CHAR_EMPTY == CHAR_SPACE == 0x00
    ensures CHAR_DOT == CHAR_COMMA == 0x80
    ensures CHAR_MINUS == CHAR_HYPHEN == 0x01
  {
  }

  // ----------------------------------------------------------------- settings

  const INTENSITY_1_32: bv8 := 0x00
  const INTENSITY_3_32: bv8 := 0x01
  const INTENSITY_5_32: bv8 := 0x02
  const INTENSITY_7_32: bv8 := 0x03
  const INTENSITY_9_32: bv8 := 0x04
  const INTENSITY_11_32: bv8 := 0x05
  const INTENSITY_13_32: bv8 := 0x06
  const INTENSITY_15_32: bv8 := 0x07
  const INTENSITY_17_32: bv8 := 0x08
  const INTENSITY_19_32: bv8 := 0x09
  const INTENSITY_21_32: bv8 := 0x0A
  const INTENSITY_23_32: bv8 := 0x0B
  const INTENSITY_25_32: bv8 := 0x0C
  const INTENSITY_27_32: bv8 := 0x0D
  const INTENSITY_29_32: bv8 := 0x0E
  const INTENSITY_31_32: bv8 := 0x0F

  /** Duty cycles 1/32, 3/32, ..., 31/32 in order. */
  const INTENSITIES: seq<bv8> :=
    [INTENSITY_1_32, INTENSITY_3_32, INTENSITY_5_32, INTENSITY_7_32,
     INTENSITY_9_32, INTENSITY_11_32, INTENSITY_13_32, INTENSITY_15_32,
     INTENSITY_17_32, INTENSITY_19_32, INTENSITY_21_32, INTENSITY_23_32,
     INTENSITY_25_32, INTENSITY_27_32, INTENSITY_29_32, INTENSITY_31_32]

  /** The intensity setting for a duty cycle of k/32 (k odd). */
  function Intensity(k: nat): (r: bv8)
    requires k % 2 == 1 && k <= 31
    ensures r as int == (k - 1) / 2
    ensures r <= 0x0F
  {
    INTENSITIES[(k - 1) / 2]
  }

  /** The sixteen intensity settings are exactly the values 0x00..0x0F. */
  lemma IntensitiesCoverNibble()
    ensures |INTENSITIES| == 16
    ensures forall i :: 0 <= i < 16 ==> INTENSITIES[i] as int == i
  {
  }

  const SCAN_LIMIT_0: bv8 := 0x00
  const SCAN_LIMIT_1: bv8 := 0x01
  const SCAN_LIMIT_2: bv8 := 0x02
  const SCAN_LIMIT_3: bv8 := 0x03
  const SCAN_LIMIT_4: bv8 := 0x04
  const SCAN_LIMIT_5: bv8 := 0x05
  const SCAN_LIMIT_6: bv8 := 0x06
  const SCAN_LIMIT_7: bv8 := 0x07

  const SCAN_LIMITS: seq<bv8> :=
    [SCAN_LIMIT_0, SCAN_LIMIT_1, SCAN_LIMIT_2, SCAN_LIMIT_3,
     SCAN_LIMIT_4, SCAN_LIMIT_5, SCAN_LIMIT_6, SCAN_LIMIT_7]

  /** The scan-limit setting that drives digits 0..k. */
  function ScanLimit(k: nat): (r: bv8)
    requires k < 8
    ensures r as int == k
  {
    SCAN_LIMITS[k]
  }

  const TEST_MODE_OFF: bv8 := 0x00
  const TEST_MODE_ON: bv8 := 0x01

  const SHUTDOWN_0V: bv8 := 0x00  // device off
  const SHUTDOWN_5V: bv8 := 0x01  // device on

  const DECODE_OFF: bv8 := 0x00
  const DECODE_ON_1: bv8 := 0x01
  const DECODE_ON_2: bv8 := 0x0F
  const DECODE_ON_3: bv8 := 0xFF
}
