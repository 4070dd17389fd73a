# HT1621 segment-LCD driver, modelled in Dafny

This project models the driver for the HT1621 LCD controller chip, which
drives a six-digit seven-segment display. The driver keeps
16 byte-wide rows of segment bits in memory, translates characters into segment patterns
through a 128-entry table, lays out strings right to left over the six
digit rows (folding a `.` into the digit before it in numeric mode), and
talks to the chip over a three-wire serial bus (chip select CS, write
strobe WR, data DATA). Commands and data writes go out as frames of bits, most
significant bit first.

Three modules:

- `HT1621Defs` (`ht1621_defs.dfy`) holds the header's constants:
  - the buffer size;
  - the mode tags;
  - the command codes the driver sends;
  - the segment bits;
  - the character table, `CharmapEntry`, defined on the codes below `CHARMAP_SIZE` = 128;
  - lemmas about the entries of the table.
- `HT1621Wire` (`ht1621_wire.dfy`) models the pins as an appended trace of line events:
  - `CsLow`, `CsHigh`, `WrLow`, `WrHigh` and `Data(b)`;
  - the encoders for a run of bits (`MsbBits`, `Clocked`), for a frame (`Framed`) and for a command or data-write frame;
  - decoders that read bits, bytes and frames back out of a trace, with the round-trip lemmas between the two.
- `HT1621Driver` (`ht1621_driver.dfy`) holds:
  - the class `Driver`. Its field `rows` is an `array<bv8>` of length 16, the row buffer, and its field `trace` holds every event sent so far.
  - one method per driver function. Methods that send something are specified by the trace they append. Methods that change the buffer are specified by a pure function of the old buffer contents:
    - `WithRow` for SetRow;
    - `Put` for SetChar;
    - `Layout` for SetString, defined through `LayoutFrom`, a recursion over the same loop state.
  - lemmas about those functions. Step lemmas give each kind of loop pass for every string. A second, independent reading of the string layout as a list of display cells (`TextCells`, `Paint`) is proved equal to `Layout` in plain mode, and in numeric mode for strings with no two points in a row.

Bytes are `bv8`, as the source's `uint8_t`. That includes the character, so a
signed `char` below zero is its two's-complement byte. The slot counter
`posCnd` of the string layout is `bv8` as in the source. The bit loop's counter
and the layout's read index are `nat`: the bit loop runs at most 255 times and
the read index stays inside the string, so neither wraps in the source either.

## Model

| member | source | states |
|---|---|---|
| HT1621Driver.Driver.constructor | myHT1621.cpp:10 | the buffer starts as 16 zero bytes, as a zero-initialised static array, and nothing has been sent |
| HT1621Driver.Driver.WriteBits | myHT1621.cpp:26-34 | appends the clock pulses of the top `cnt` bits of `data`, most significant first, each pulse WR low, data, WR high; after bit 8 only zeros follow, as the register is shifted out |
| HT1621Wire.MsbBitsOfByte | myHT1621.cpp:28-31 | for `cnt <= 8` exactly `cnt` bits are sent and bit i is bit 7-i of the byte |
| HT1621Wire.ClockedShape | myHT1621.cpp:28-33 | `n` bits become `3n` events; event 3i is WR low, 3i+1 carries bit i, 3i+2 is WR high; no chip-select edge is among them |
| HT1621Wire.FromMsbOfMsbBits | myHT1621.cpp:26-34 | reading the first k bits back, most significant first, gives the top k bits of the byte (`x >> (8 - k)`) |
| HT1621Driver.Driver.Write | myHT1621.cpp:36-49 | appends exactly one data-write frame: CS low, 3 tag bits of `mode`, 6 bits of `adr << 2`, 8 data bits, CS high; the mode defaults to the write tag |
| HT1621Wire.WriteFrameLayout | myHT1621.cpp:36-49 | a data-write frame carries 17 bits: the top 3 bits of the mode, address bits 5..0 MSB first, the data byte MSB first; CS low only at the start and CS high only at the end |
| HT1621Wire.FramedEdges | myHT1621.cpp:36-64 | a frame of n bits is 2 + 3n events: CS low first, CS high last, and no CS edge in between |
| HT1621Wire.AddressBits | myHT1621.cpp:43 | the six bits sent for `adr << 2` are bits 5..0 of `adr` |
| HT1621Wire.WriteRoundTrip | myHT1621.cpp:36-49 | decoding a write frame gives exactly one frame, whose tag is `mode >> 5`, address `adr & 0x3F` and data `data` |
| HT1621Wire.WriteFrameDropsTopAddressBits | myHT1621.cpp:43 | two addresses give the same frame if and only if they agree in their low six bits |
| HT1621Driver.Driver.Command | myHT1621.cpp:51-64 | appends exactly one command frame |
| HT1621Wire.CommandFrameLayout | myHT1621.cpp:51-64 | a command frame carries the bits 1,0,0, the command byte MSB first and one 0 bit, 12 bits in all, with CS low first and CS high last and no other CS edge |
| HT1621Wire.CommandRoundTrip | myHT1621.cpp:51-64 | decoding a command frame gives one frame whose command byte is `cmd` |
| HT1621Wire.CommandTraceRoundTrip | myHT1621.cpp:17-23 | a run of command frames decodes to the list of commands in the order sent |
| HT1621Driver.Driver.Init | myHT1621.cpp:12-24 | appends exactly the command frames of system enable, RC oscillator, bias 1/3 with 4 commons, LCD on, in that order; leaves the buffer alone |
| HT1621Driver.Driver.SendDisplay | myHT1621.cpp:67-72 | appends `Flush(rows, 16)`, one write frame per row in row order; changes only the trace, so a second call without a buffer write in between sends the same frames again |
| HT1621Driver.FlushRoundTrip | myHT1621.cpp:67-72 | a flush of n rows decodes to n data writes, the i-th with tag 101, address 2i and the byte of row i |
| HT1621Driver.FlushIsFrames | myHT1621.cpp:69-71 | the flush is the concatenation of one write frame per row, in row order |
| HT1621Driver.Driver.SetRow | myHT1621.cpp:74-78 | the buffer becomes `WithRow(old, row, data)`; the trace is untouched |
| HT1621Driver.WithRowEffect | myHT1621.cpp:76-77 | for a row inside the buffer that row becomes the value and every other row keeps its byte; for a row outside the buffer nothing changes; the length is kept |
| HT1621Driver.Driver.SetChar | myHT1621.cpp:80-92 | the buffer becomes `Put(old, Placement(pos, c, dp))`; `ok` is false exactly when the lookup leaves the table, and then nothing is written; `dp` defaults to false as in the header |
| HT1621Driver.CharRow | myHT1621.cpp:82-89 | the lookup as written: it fails exactly at code 0x80, the table's size; when it succeeds and the point is asked for, the point bit is set |
| HT1621Driver.CharRowAgainstGlyph | myHT1621.cpp:82-89 | codes below 0x80 give their table entry, codes above 0x80 give the blank entry, each with the point added when asked; the lookup fails exactly at 0x80; where it succeeds it agrees with the corrected `Glyph` |
| HT1621Driver.GuardLetsCode128Through | myHT1621.cpp:84-87 | the bounds check keeps the index 0x80, which is the table's size, so the read there lies past the table |
| HT1621Driver.CorrectedIndex | myHT1621.cpp:84-85 | the corrected index always lies inside the table and is either the code itself or a blank entry |
| HT1621Driver.PutEffect | myHT1621.cpp:80-92 | one SetChar changes at most its own row: that row gets the glyph of the character; code 0x80 changes nothing; the length is kept |
| HT1621Driver.GlyphDecimalPoint | myHT1621.cpp:89 | asking for the point ORs in `SEG_DP` and keeps all seven bars as they are |
| HT1621Driver.FirstNulIsFirst | myHT1621.cpp:114-118 | no byte before the first NUL is a NUL |
| HT1621Driver.Step | myHT1621.cpp:100-112 | one loop pass gives slot `p - 1` for a `.` in numeric mode away from slot 0 and slot `p` otherwise; the point flag is set exactly for a `.` in numeric mode; any other byte is drawn as itself |
| HT1621Driver.Driver.SetString | myHT1621.cpp:94-121 | the buffer becomes `Layout(old, s, numParser)`, proved with the loop invariant `LayoutLoop`; the slot counter stays in 0..6 and the read index never passes the terminator; `pos` is ignored; `numParser` defaults to false as in the header |
| HT1621Driver.LayoutFrom | myHT1621.cpp:99-120 | the loop itself as a recursion over its state (read index `l`, slot `p`): stop at six slots or at the NUL, otherwise one SetChar at row `5 - q` for the slot `q` that `Step` gives, then continue at `l + 1` and `q + 1`; its properties are the lemmas below |
| HT1621Driver.LayoutPass | myHT1621.cpp:113-119 | a pass that draws a byte keeps the loop invariant, with the slot one past the one drawn |
| HT1621Driver.LayoutStops | myHT1621.cpp:115-118 | reaching the terminator leaves the buffer at its final contents |
| HT1621Driver.LayoutKeepsUpperRows | myHT1621.cpp:116 | the string layout only writes rows 0..5; rows 6..15 keep their bytes and the length is kept |
| HT1621Driver.LayoutIsPaint | myHT1621.cpp:94-121 | for strings without two points in a row, the loop's effect equals the independent reading: the cells of the string drawn at rows 5, 4, … with their points, the sixth cell's point not drawn |
| HT1621Driver.LayoutFromIsPaint | myHT1621.cpp:99-120 | the same equality from any loop state that is not sitting on a point |
| HT1621Driver.PlainLayoutRow | myHT1621.cpp:94-121 | in plain mode the k-th byte before the terminator (k < 6) lands on row 5-k without a point, and the rows of slots past the terminator keep their old bytes |
| HT1621Driver.TailRowsKept | myHT1621.cpp:114-118 | in either mode, the row of every slot at or past the terminator's index keeps its old byte |
| HT1621Driver.LayoutLeavesLaterSlots | myHT1621.cpp:99-120 | from any loop state, the remaining passes write no slot at or beyond `p + (FirstNul(s) - l)` |
| HT1621Driver.PlainCells | myHT1621.cpp:99-119 | in plain mode every byte before the terminator is one cell, without a point |
| HT1621Driver.PaintRow | myHT1621.cpp:113-119 | the row of slot k holds the k-th cell's glyph, with its point unless it is the sixth cell, or the old byte when there are fewer cells |
| HT1621Driver.PaintKeeps | myHT1621.cpp:113-119 | drawing from slot p on leaves the rows of the earlier slots and rows 6 and up alone |
| HT1621Driver.LeadingPointStep | myHT1621.cpp:103-111 | for every string, a `.` at slot 0 in numeric mode draws `0.` at row 5, and the loop goes on at slot 1 with the next byte |
| HT1621Driver.FoldedPointStep | myHT1621.cpp:106-111 | for every string, a `.` after slot 0 in numeric mode redraws the byte before it (a `.` itself after another `.`) with the point at the previous slot's row, and the slot counter is unchanged afterwards |
| HT1621Driver.PointedStep | myHT1621.cpp:99-119 | for every string, a byte followed by `.` in numeric mode below the sixth slot ends up with its point at its own row, and the `.` takes no slot |
| HT1621Driver.LeadingPointPass | myHT1621.cpp:103-105 | in the cell reading, for every string, a leading `.` is the first cell, `0.` at row 5 |
| HT1621Driver.PointedPass | myHT1621.cpp:106-111 | in the cell reading, for every string, a byte followed by a `.` below the sixth slot is one cell with its point |
| HT1621Driver.LastPointedPass | myHT1621.cpp:99 | when the byte drawn in the sixth slot is followed by a `.`, the loop ends before reading it, so no point is drawn there |
| HT1621Driver.NumberWithPoint | myHT1621.cpp:94-121 | "1.5" in numeric mode shows `1.` at row 5 and `5` at row 4 and leaves every other row alone |
| HT1621Driver.LeadingPoint | myHT1621.cpp:103-105 | ".5" in numeric mode shows `0.` at row 5 and `5` at row 4 |
| HT1621Driver.DoublePointDropsDigit | myHT1621.cpp:106-109 | "1.." in numeric mode redraws the first `.` with a point at row 5, so the `1` is lost |
| HT1621Driver.PlainPoint | myHT1621.cpp:94-121 | "1.5" in plain mode takes three rows, with a bare point at row 4 |
| HT1621Driver.Driver.LCDOn | myHT1621.cpp:123-126 | appends exactly the command frame of 0x03 and leaves the buffer alone |
| HT1621Driver.Driver.LCDOff | myHT1621.cpp:128-131 | appends exactly the command frame of 0x02 and leaves the buffer alone |
| HT1621Defs.CharmapEntry | myHT1621.h:136-225 | the character table: one entry per code below 0x80, in table order; its properties are the entry lemmas below |
| HT1621Defs.HexDigitsMatchAsciiDigits | myHT1621.h:137-167 | entries 0..9 equal the entries of '0'..'9' |
| HT1621Defs.HexLettersMatchAsciiLetters | myHT1621.h:147-202 | entries 10..15 equal the entries of 'A'..'F' and of 'a'..'f' |
| HT1621Defs.BlankRun | myHT1621.h:153 | entries 0x10..0x21, which include the space and the fallback index 32, are blank |
| HT1621Defs.PunctuationGlyphs | myHT1621.h:157 | ',' and '.' light only the point; '-' is the middle bar |
| HT1621Defs.SegmentsPartitionTheByte | myHT1621.h:119-166 | the eight segment bits are distinct single bits filling the byte; the entries of 8 and '8' are all bars without the point |
| HT1621Defs.ModeTagPrefixes | myHT1621.h:78-102 | the top three bits of the command, write and read tags are 100, 101, 110; the bias command is 0x29 |

## Left out

- The pin configuration header, the PORT/DDR register macros and the pin setup and idle-level macros (`HT1621_PIN_SETUP`, `HT1621_PIN_DEFAULT`) are electrical setup. The lines are abstract trace events, and `Driver.Init` models only the command sequence.
- The demo program `main.cpp` (busy-wait delays, `sprintf`, an endless loop) is not part of this model.
- Edge timing is not modelled; the trace keeps only the order of the line changes.
- Read mode: its tag is declared but no read is implemented. Only its tag value is modelled.
- The command codes the driver never sends are not declared.
- HT1621Defs.CharmapEntry: the table is a function from code to byte (a match over the 128 codes) rather than a sequence value. Its domain `c < CHARMAP_SIZE` stands for the table's 128 entries. The flash read `pgm_read_byte_near` becomes a call of this function.
- Driver.SetChar: at code 0x80 the source reads the flash byte that follows the table, whose value is not part of the program. The model cannot give that byte, so it writes nothing and returns `ok == false` instead.
- HT1621Driver.LayoutIsPaint: the cell reading covers plain mode and only those numeric strings with no two points in a row. For two or more points in a row the source redraws the previous `.` itself, which is not a cell of the reading. That case is covered pass by pass by `FoldedPointStep`, by `TailRowsKept`, `LayoutKeepsUpperRows` and the loop's own specification `Layout`, and by the example `DoublePointDropsDigit`.
- HT1621Driver.LayoutFromIsPaint: the same restriction to numeric strings with no two points in a row, from any loop state on.
- Driver.SetString reads `buffer[l]` one byte at a time from a C string. The model takes the string as a byte sequence that contains a NUL. Running past a missing terminator is not modelled.
- The global `_HT1621DataArr` is the field `rows` of one `Driver` object. The module-level globals of the source are not aliased.

## Findings

| source | as written | input that shows it | evidently intended | confidence | as-written member | corrected member |
|---|---|---|---|---|---|---|
| myHT1621.cpp:84 | `index>sizeof(HT1621_CHARMAP)` lets index 128 through, which is one past the 128-entry table, and the byte after the table is read | `c = 0x80` (−128 as a signed char) | `index>=sizeof(...)`, so that 0x80 falls back to the blank entry at index 32 like every other code beyond the table | not executed | HT1621Driver.GuardLetsCode128Through | HT1621Driver.CharRowAgainstGlyph |

The as-written lookup is `HT1621Driver.CharRow`. It fails exactly at 0x80, and
`GuardLetsCode128Through` exhibits the index that passes the check. The
corrected lookup is `HT1621Driver.Glyph`, built on `CorrectedIndex`. It is
total, and `CharRowAgainstGlyph` proves that it agrees with the as-written
lookup wherever that one stays inside the table, and that it gives the blank
glyph at 0x80. `PutEffect` states SetChar's effect through `Glyph`.
