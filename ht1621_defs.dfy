/**
  The constants of the HT1621 driver header: the size of the row buffer, the
  frame mode tags, the command codes the driver sends, the bit of every LCD
  segment and the read-only table that turns a character code into the
  segments that draw it.
 */
module HT1621Defs {

  /** Number of byte-wide rows in the buffer: 16 bytes cover the chip's 32 nibbles. */
  const MAX_ROW: nat := 16

  // Frame mode tags; only the top three bits are clocked out.
  const MODE_READ: bv8 := 0xC0
  const MODE_WRITE: bv8 := 0xA0
  const MODE_CMD: bv8 := 0x80

  // Command codes the driver sends.
  const CMD_SYS_EN: bv8 := 0x01
  const CMD_LCD_OFF: bv8 := 0x02
  const CMD_LCD_ON: bv8 := 0x03
  const CMD_RC_256K: bv8 := 0x18
  const CMD_BIAS_H_4: bv8 := 0x28
  /** Bias setting for the panel the driver was written for: 1/3 bias, 4 commons. */
  const CMD_BIAS_T_4: bv8 := CMD_BIAS_H_4 | 0x01

  // One bit per LCD segment of a digit.
  const SEG_DP: bv8 := 0x80
  const SEG_A: bv8 := 0x10
  const SEG_B: bv8 := 0x20
  const SEG_C: bv8 := 0x40
  const SEG_D: bv8 := 0x08
  const SEG_E: bv8 := 0x04
  const SEG_F: bv8 := 0x01
  const SEG_G: bv8 := 0x02

  /** The segments of the seven bars, without the decimal point. */
  const ALL_BARS: bv8 := SEG_A | SEG_B | SEG_C | SEG_D | SEG_E | SEG_F | SEG_G

  /** The size of the character table in bytes: one entry per 7-bit code. */
  const CHARMAP_SIZE: bv8 := 0x80

  /** Index of the blank glyph used for character codes beyond the table. */
  const BLANK_INDEX: bv8 := 0x20

  /**
    The character table: the segment pattern of every code below
    CHARMAP_SIZE. Codes 0x00..0x0F draw the hex digits, codes 0x10..0x21 are
    blank, and from 0x22 on the table follows ASCII; codes without a glyph
    are blank.
   */
  function CharmapEntry(c: bv8): bv8
    requires c < CHARMAP_SIZE
  {
    match c
    case 0x00 => SEG_A | SEG_B | SEG_C | SEG_D | SEG_E | SEG_F
    case 0x01 => SEG_B | SEG_C
    case 0x02 => SEG_A | SEG_B | SEG_G | SEG_E | SEG_D
    case 0x03 => SEG_A | SEG_B | SEG_G | SEG_C | SEG_D
    case 0x04 => SEG_F | SEG_G | SEG_B | SEG_C
    case 0x05 => SEG_A | SEG_F | SEG_G | SEG_C | SEG_D
    case 0x06 => SEG_A | SEG_F | SEG_G | SEG_C | SEG_D | SEG_E
    case 0x07 => SEG_A | SEG_B | SEG_C
    case 0x08 => 0x7f
    case 0x09 => SEG_A | SEG_B | SEG_F | SEG_G | SEG_C | SEG_D
    case 0x0A => SEG_E | SEG_G | SEG_F | SEG_A | SEG_B | SEG_C // hex A
    case 0x0B => SEG_F | SEG_E | SEG_G | SEG_C | SEG_D        // hex b
    case 0x0C => SEG_A | SEG_F | SEG_E | SEG_D                // hex C
    case 0x0D => SEG_E | SEG_G | SEG_D | SEG_C | SEG_B        // hex d
    case 0x0E => SEG_A | SEG_F | SEG_G | SEG_E | SEG_D        // hex E
    case 0x0F => SEG_A | SEG_F | SEG_G | SEG_E                // hex F
    case 0x10 => 0
    case 0x11 => 0
    case 0x12 => 0
    case 0x13 => 0
    case 0x14 => 0
    case 0x15 => 0
    case 0x16 => 0
    case 0x17 => 0
    case 0x18 => 0
    case 0x19 => 0
    case 0x1A => 0
    case 0x1B => 0
    case 0x1C => 0
    case 0x1D => 0
    case 0x1E => 0
    case 0x1F => 0
    case 0x20 => 0                                            // space
    case 0x21 => 0                                            // !
    case 0x22 => SEG_F | SEG_B                                // double quote
    case 0x23 => 0                                            // #
    case 0x24 => 0                                            // $
    case 0x25 => 0                                            // %
    case 0x26 => 0                                            // &
    case 0x27 => SEG_B                                        // apostrophe
    case 0x28 => SEG_A | SEG_F | SEG_E | SEG_D                // (
    case 0x29 => SEG_A | SEG_B | SEG_C | SEG_D                // )
    case 0x2A => 0                                            // *
    case 0x2B => 0                                            // +
    case 0x2C => SEG_DP                                       // ,
    case 0x2D => SEG_G                                        // -
    case 0x2E => SEG_DP                                       // .
    case 0x2F => 0                                            // /
    case 0x30 => SEG_A | SEG_B | SEG_C | SEG_D | SEG_E | SEG_F // 0
    case 0x31 => SEG_B | SEG_C                                // 1
    case 0x32 => SEG_A | SEG_B | SEG_G | SEG_E | SEG_D        // 2
    case 0x33 => SEG_A | SEG_B | SEG_G | SEG_C | SEG_D        // 3
    case 0x34 => SEG_F | SEG_G | SEG_B | SEG_C                // 4
    case 0x35 => SEG_A | SEG_F | SEG_G | SEG_C | SEG_D        // 5
    case 0x36 => SEG_A | SEG_F | SEG_G | SEG_C | SEG_D | SEG_E // 6
    case 0x37 => SEG_A | SEG_B | SEG_C                        // 7
    case 0x38 => 0x7f                                         // 8
    case 0x39 => SEG_A | SEG_B | SEG_F | SEG_G | SEG_C | SEG_D // 9
    case 0x3A => 0                                            // :
    case 0x3B => 0                                            // ;
    case 0x3C => 0                                            // <
    case 0x3D => SEG_G | SEG_D                                // =
    case 0x3E => 0                                            // >
    case 0x3F => 0                                            // ?
    case 0x40 => 0                                            // @
    case 0x41 => SEG_E | SEG_G | SEG_F | SEG_A | SEG_B | SEG_C // A
    case 0x42 => SEG_F | SEG_E | SEG_G | SEG_C | SEG_D        // B
    case 0x43 => SEG_A | SEG_F | SEG_E | SEG_D                // C
    case 0x44 => SEG_E | SEG_G | SEG_D | SEG_C | SEG_B        // D
    case 0x45 => SEG_A | SEG_F | SEG_G | SEG_E | SEG_D        // E
    case 0x46 => SEG_A | SEG_F | SEG_G | SEG_E                // F
    case 0x47 => SEG_A | SEG_F | SEG_G | SEG_C | SEG_D | SEG_E // G
    case 0x48 => SEG_F | SEG_G | SEG_E | SEG_C | SEG_B        // H
    case 0x49 => SEG_C                                        // I
    case 0x4A => SEG_B | SEG_C | SEG_D                        // J
    case 0x4B => SEG_F | SEG_E | SEG_G | SEG_C                // K
    case 0x4C => SEG_F | SEG_E | SEG_D                        // L
    case 0x4D => 0                                            // M
    case 0x4E => 0                                            // N
    case 0x4F => SEG_G | SEG_E | SEG_D | SEG_C                // O
    case 0x50 => SEG_A | SEG_B | SEG_F | SEG_G | SEG_E        // P
    case 0x51 => SEG_A | SEG_B | SEG_C | SEG_D | SEG_E | SEG_F | SEG_DP // Q
    case 0x52 => 0                                            // R
    case 0x53 => SEG_A | SEG_F | SEG_G | SEG_C | SEG_D        // S
    case 0x54 => SEG_B | SEG_G | SEG_C | SEG_D                // T
    case 0x55 => SEG_F | SEG_E | SEG_D | SEG_C | SEG_B        // U
    case 0x56 => 0                                            // V
    case 0x57 => 0                                            // W
    case 0x58 => SEG_F | SEG_G | SEG_E | SEG_C | SEG_B        // X
    case 0x59 => 0                                            // Y
    case 0x5A => 0                                            // Z
    case 0x5B => SEG_A | SEG_F | SEG_E | SEG_D                // [
    case 0x5C => 0                                            // backslash
    case 0x5D => SEG_A | SEG_B | SEG_C | SEG_D                // ]
    case 0x5E => 0                                            // ^
    case 0x5F => SEG_D                                        // _
    case 0x60 => SEG_F                                        // backquote
    case 0x61 => SEG_E | SEG_G | SEG_F | SEG_A | SEG_B | SEG_C // a
    case 0x62 => SEG_F | SEG_E | SEG_G | SEG_C | SEG_D        // b
    case 0x63 => SEG_A | SEG_F | SEG_E | SEG_D                // c
    case 0x64 => SEG_E | SEG_G | SEG_D | SEG_C | SEG_B        // d
    case 0x65 => SEG_A | SEG_F | SEG_G | SEG_E | SEG_D        // e
    case 0x66 => SEG_A | SEG_F | SEG_G | SEG_E                // f
    case 0x67 => SEG_A | SEG_F | SEG_G | SEG_C | SEG_D | SEG_E // g
    case 0x68 => SEG_F | SEG_G | SEG_E | SEG_C | SEG_B        // h
    case 0x69 => SEG_C                                        // i
    case 0x6A => SEG_B | SEG_C | SEG_D                        // j
    case 0x6B => SEG_F | SEG_E | SEG_G | SEG_C                // k
    case 0x6C => SEG_F | SEG_E | SEG_D                        // l
    case 0x6D => 0                                            // m
    case 0x6E => SEG_E | SEG_G | SEG_C                        // n
    case 0x6F => SEG_G | SEG_E | SEG_D | SEG_C                // o
    case 0x70 => SEG_A | SEG_B | SEG_F | SEG_G | SEG_E        // p
    case 0x71 => SEG_A | SEG_B | SEG_C | SEG_D | SEG_E | SEG_F | SEG_DP // q
    case 0x72 => SEG_E | SEG_G                                // r
    case 0x73 => SEG_A | SEG_F | SEG_G | SEG_C | SEG_D        // s
    case 0x74 => SEG_B | SEG_G | SEG_C | SEG_D                // t
    case 0x75 => SEG_E | SEG_D | SEG_C                        // u
    case 0x76 => 0                                            // v
    case 0x77 => 0                                            // w
    case 0x78 => SEG_F | SEG_G | SEG_E | SEG_C | SEG_B        // x
    case 0x79 => 0                                            // y
    case 0x7A => 0                                            // z
    case 0x7B => SEG_A | SEG_F | SEG_E | SEG_D                // {
    case 0x7C => SEG_F | SEG_E                                // |
    case 0x7D => SEG_A | SEG_B | SEG_C | SEG_D                // }
    case 0x7E => 0                                            // ~
    case _ => 0                                               // DEL (0x7F)
  }

  /** The hex digits 0..9 at the head of the table draw like the ASCII digits '0'..'9'. */
  lemma HexDigitsMatchAsciiDigits(c: bv8)
    requires c < 10
    ensures CharmapEntry(c) == CharmapEntry(0x30 + c)
  {
  }

  /** The hex digits A..F draw like both 'A'..'F' and 'a'..'f'. */
  lemma HexLettersMatchAsciiLetters(c: bv8)
    requires 10 <= c < 16
    ensures CharmapEntry(c) == CharmapEntry(0x37 + c)
    ensures CharmapEntry(c) == CharmapEntry(0x57 + c)
  {
  }

  /** Codes 0x10..0x21, which include the space and the fallback index, are blank. */
  lemma BlankRun(c: bv8)
    requires 0x10 <= c <= 0x21
    ensures CharmapEntry(c) == 0
  {
  }

  /** Comma and full stop light only the decimal point; the minus sign is the middle bar. */
  lemma PunctuationGlyphs()
    ensures CharmapEntry(0x2C) == SEG_DP && CharmapEntry(0x2E) == SEG_DP
    ensures CharmapEntry(0x2D) == SEG_G
  {
  }

  /** A single set bit. */
  predicate IsSingleBit(x: bv8) {
    x != 0 && x & (x - 1) == 0
  }

  /**
    The eight segments are eight distinct bits that together fill a byte, and
    the glyph of '8' is every bar but the decimal point.
   */
  lemma SegmentsPartitionTheByte()
    ensures var segs := [SEG_DP, SEG_A, SEG_B, SEG_C, SEG_D, SEG_E, SEG_F, SEG_G];
      (forall i :: 0 <= i < 8 ==> IsSingleBit(segs[i])) &&
      (forall i, j :: 0 <= i < j < 8 ==> segs[i] & segs[j] == 0)
    ensures SEG_DP | ALL_BARS == 0xFF
    ensures SEG_DP & ALL_BARS == 0
    ensures CharmapEntry(0x08) == ALL_BARS && CharmapEntry(0x38) == ALL_BARS
  {
  }

  /** The top three bits of the mode tags read 100 (command), 101 (write) and 110 (read). */
  lemma ModeTagPrefixes()
    ensures MODE_CMD >> 5 == 4 && MODE_WRITE >> 5 == 5 && MODE_READ >> 5 == 6
    ensures CMD_BIAS_T_4 == 0x29
  {
  }
}
