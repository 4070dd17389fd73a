/**
  The HT1621 driver: a row buffer mirrored in memory, the character
  translation into segment bytes, the right-to-left string layout with its
  decimal-point folding, and the transmission of commands and of the whole
  buffer. The pin lines are the trace of `HT1621Wire`.

  The pure part of this module specifies the driver: what a character turns
  into (`CharRow`, `Glyph`), which rows a string writes (`Step`,
  `LayoutFrom`, `Layout`) and a reference reading of the same layout as a list of display
  cells (`TextCells`, `Paint`), proved equal to it in plain mode, and in
  numeric mode for strings with no two points in a row.
 */
module HT1621Driver {
  import opened HT1621Defs
  import opened HT1621Wire

  const NUL: bv8 := 0x00
  const DOT: bv8 := 0x2E         // '.'
  const DIGIT_ZERO: bv8 := 0x30  // '0'

  /** Number of character positions the string layout fills, rows 5 down to 0. */
  const SLOTS: bv8 := 6

  // ---------------------------------------------------------------------
  // Row buffer

  /** The buffer after setting `row` to `v`; rows outside the buffer are ignored. */
  function WithRow(rows: seq<bv8>, row: nat, v: bv8): seq<bv8>
  {
    if row < |rows| then rows[row := v] else rows
  }

  lemma WithRowEffect(rows: seq<bv8>, row: nat, v: bv8)
    ensures |WithRow(rows, row, v)| == |rows|
    ensures row < |rows| ==> WithRow(rows, row, v)[row] == v
    ensures forall j :: 0 <= j < |rows| && j != row ==> WithRow(rows, row, v)[j] == rows[j]
    ensures row >= |rows| ==> WithRow(rows, row, v) == rows
  {
  }

  // ---------------------------------------------------------------------
  // Character translation

  function WithDp(v: bv8, dp: bool): bv8
  {
    if dp then v | SEG_DP else v
  }

  /**
    The table index the driver reads for byte `c`. Only codes strictly above
    the table size are replaced by the blank glyph's index.
   */
  function CharIndex(c: bv8): bv8
  {
    if c > CHARMAP_SIZE then BLANK_INDEX else c
  }

  /**
    The row byte the driver produces for `c`, with the decimal point added
    when `dp`; None when the index falls outside the table.
   */
  function CharRow(c: bv8, dp: bool): (r: Option<bv8>)
    ensures r.None? <==> c == CHARMAP_SIZE
    ensures r.Some? && dp ==> r.value & SEG_DP == SEG_DP
  {
    var i := CharIndex(c);
    if i < CHARMAP_SIZE then Some(WithDp(CharmapEntry(i), dp)) else None
  }

  /** The index with the bound checked as intended: every code outside the table is blank. */
  function CorrectedIndex(c: bv8): (i: bv8)
    ensures i < CHARMAP_SIZE
    ensures i == c || CharmapEntry(i) == 0
  {
    if c >= CHARMAP_SIZE then BlankRun(BLANK_INDEX); BLANK_INDEX else c
  }

  /** The row byte for `c` with the corrected bound. */
  function Glyph(c: bv8, dp: bool): bv8
  {
    WithDp(CharmapEntry(CorrectedIndex(c)), dp)
  }

  /**
    The as-written guard `index > 128` lets the code 0x80 through: index 128
    is one past the 128-entry table, so the lookup leaves the table.
   */
  lemma GuardLetsCode128Through(dp: bool)
    ensures CharIndex(0x80) == CHARMAP_SIZE
    ensures CharRow(0x80, dp) == None
  {
  }

  /**
    Codes below 128 read their own entry, codes above 128 the blank entry,
    and only 128 leaves the table; wherever the lookup stays inside the table
    it agrees with the corrected one, which draws 128 blank.
   */
  lemma CharRowAgainstGlyph(c: bv8, dp: bool)
    ensures c < 0x80 ==> CharRow(c, dp) == Some(WithDp(CharmapEntry(c), dp))
    ensures c > 0x80 ==> CharRow(c, dp) == Some(WithDp(0, dp))
    ensures CharRow(c, dp).None? <==> c == 0x80
    ensures CharRow(c, dp).Some? ==> CharRow(c, dp).value == Glyph(c, dp)
    ensures Glyph(0x80, dp) == WithDp(0, dp)
  {
    BlankRun(BLANK_INDEX);
  }

  /** The decimal point flag adds exactly the DP bit and leaves the seven bars alone. */
  lemma GlyphDecimalPoint(c: bv8)
    ensures Glyph(c, true) == Glyph(c, false) | SEG_DP
    ensures Glyph(c, true) & ALL_BARS == Glyph(c, false) & ALL_BARS
    ensures Glyph(c, true) & SEG_DP == SEG_DP
  {
  }

  // ---------------------------------------------------------------------
  // String layout

  /** Index of the first NUL byte: the length of the C string `s`. */
  function FirstNul(s: seq<bv8>): (n: nat)
    requires NUL in s
    ensures n < |s| && s[n] == NUL
  {
    if s[0] == NUL then 0
    else
      assert NUL in s[1..] by { assert s == [s[0]] + s[1..]; }
      1 + FirstNul(s[1..])
  }

  /** No byte before the terminator is NUL: `FirstNul` is the length of the C string. */
  lemma {:induction false} FirstNulIsFirst(s: seq<bv8>, j: nat)
    requires NUL in s && j < FirstNul(s)
    ensures s[j] != NUL
    decreases j
  {
    assert NUL in s[1..] by { assert s == [s[0]] + s[1..]; }
    if j > 0 {
      FirstNulIsFirst(s[1..], j - 1);
    }
  }

  /** One character put at one row: a call of SetChar. */
  datatype Placement = Placement(row: bv8, c: bv8, dp: bool)

  /**
    One pass of the layout loop: the byte to draw, its point flag and the
    slot it goes to. A '.' in numeric mode turns into '0' with the point in
    the first slot, and otherwise re-renders the previous byte with the point
    one slot back, so that it takes no slot of its own.
   */
  function Step(s: seq<bv8>, numParser: bool, l: nat, p: bv8): (r: (bv8, bool, bv8))
    requires l < |s| && (p == 0 || l > 0)
    ensures r.2 <= p && (r.2 < p <==> numParser && s[l] == DOT && p > 0)
    ensures r.2 == if numParser && s[l] == DOT && p > 0 then p - 1 else p
    ensures r.1 <==> numParser && s[l] == DOT
    ensures !r.1 ==> r.0 == s[l]
  {
    if numParser && s[l] == DOT then
      if p == 0 then (DIGIT_ZERO, true, 0) else (s[l - 1], true, p - 1)
    else (s[l], false, p)
  }

  /**
    The buffer after the layout loop runs from read index `l` with slot
    counter `p` on `rows`: one SetChar per pass, until the NUL or until six
    slots are filled.
   */
  function LayoutFrom(rows: seq<bv8>, s: seq<bv8>, numParser: bool, l: nat, p: bv8): seq<bv8>
    requires NUL in s && l <= FirstNul(s) && p <= SLOTS && (p == 0 || l > 0)
    decreases |s| - l
  {
    if p >= SLOTS then rows
    else
      var (b, dp, q) := Step(s, numParser, l, p);
      if b == NUL then rows
      else LayoutFrom(Put(rows, Placement(5 - q, b, dp)), s, numParser, l + 1, q + 1)
  }

  /**
    The state of the layout loop on its way to `target`: read index `l`,
    slot counter `p`, and a buffer from which the rest of the loop produces
    `target`.
   */
  ghost predicate LayoutLoop(rows: seq<bv8>, target: seq<bv8>, s: seq<bv8>, numParser: bool, l: nat, p: bv8)
  {
    NUL in s && p <= SLOTS && l <= FirstNul(s) && (p == 0 || l > 0) && LayoutFrom(rows, s, numParser, l, p) == target
  }

  /** A pass of the layout loop that finds the terminator leaves the buffer as it is. */
  lemma LayoutStops(rows: seq<bv8>, target: seq<bv8>, s: seq<bv8>, numParser: bool, l: nat, p: bv8)
    requires LayoutLoop(rows, target, s, numParser, l, p) && p < SLOTS
    requires Step(s, numParser, l, p).0 == NUL
    ensures rows == target
  {
  }

  /**
    A pass of the layout loop that draws byte `b` with point `dp` at slot `q`
    by SetChar(5 - q, b, dp), which leaves `after`, keeps the loop state.
   */
  lemma LayoutPass(before: seq<bv8>, after: seq<bv8>, target: seq<bv8>, s: seq<bv8>, numParser: bool,
                   l: nat, p: bv8, b: bv8, dp: bool, q: bv8)
    requires LayoutLoop(before, target, s, numParser, l, p) && p < SLOTS
    requires (b, dp, q) == Step(s, numParser, l, p) && b != NUL
    requires after == Put(before, Placement(5 - q, b, dp))
    ensures LayoutLoop(after, target, s, numParser, l + 1, q + 1)
  {
    assert s[l] != NUL;
  }

  /** The buffer after one SetChar call; the call fails without writing when the lookup leaves the table. */
  function Put(rows: seq<bv8>, w: Placement): seq<bv8>
  {
    match CharRow(w.c, w.dp)
    case None => rows
    case Some(v) => WithRow(rows, w.row as nat, v)
  }

  /** The buffer after SetString(s, numParser) on `rows`. */
  function Layout(rows: seq<bv8>, s: seq<bv8>, numParser: bool): seq<bv8>
    requires NUL in s
  {
    LayoutFrom(rows, s, numParser, 0, 0)
  }

  // Reference reading of the layout: the display cells a string denotes.

  datatype Cell = Cell(c: bv8, dp: bool)

  /** No two consecutive '.' before the terminator. */
  ghost predicate NoDoubleDots(s: seq<bv8>)
    requires NUL in s
  {
    forall j :: 0 < j < FirstNul(s) ==> !(s[j - 1] == DOT && s[j] == DOT)
  }

  /**
    The cells of the string from index `l`. In plain mode every byte is one
    cell. In numeric mode a leading '.' is the cell '0.', a byte followed by
    a '.' is one cell with its point set, and every other byte is a cell of
    its own. `first` holds before any cell is produced.
   */
  function TextCells(s: seq<bv8>, numParser: bool, l: nat, first: bool): seq<Cell>
    requires NUL in s && l <= FirstNul(s)
    decreases |s| - l
  {
    if s[l] == NUL then []
    else if numParser && s[l] == DOT then
      if first then [Cell(DIGIT_ZERO, true)] + TextCells(s, numParser, l + 1, false)
      else TextCells(s, numParser, l + 1, false)
    else if numParser && s[l + 1] == DOT then
      [Cell(s[l], true)] + TextCells(s, numParser, l + 2, false)
    else
      [Cell(s[l], false)] + TextCells(s, numParser, l + 1, false)
  }

  /**
    Cell k drawn at row 5-k for the first six cells. The point of the sixth
    cell is not drawn: the loop stops before it reads the '.' that follows.
   */
  function Paint(rows: seq<bv8>, cells: seq<Cell>, p: bv8): seq<bv8>
    decreases |cells|
  {
    if p >= SLOTS || cells == [] then rows
    else Paint(Put(rows, Placement(5 - p, cells[0].c, cells[0].dp && p < SLOTS - 1)), cells[1..], p + 1)
  }

  /**
    SetChar's effect in terms of the corrected glyph: row `w.row` gets the
    glyph and no other row changes, except that the code 0x80 writes nothing.
   */
  lemma PutEffect(rows: seq<bv8>, w: Placement)
    ensures |Put(rows, w)| == |rows|
    ensures forall j :: 0 <= j < |rows| && j != w.row as nat ==> Put(rows, w)[j] == rows[j]
    ensures w.c != 0x80 && w.row as nat < |rows| ==> Put(rows, w)[w.row as nat] == Glyph(w.c, w.dp)
    ensures w.c == 0x80 ==> Put(rows, w) == rows
  {
    CharRowAgainstGlyph(w.c, w.dp);
  }

  /** Drawing a byte and then the same byte with its point at the same row draws it with the point. */
  lemma PutPointOver(rows: seq<bv8>, r: bv8, c: bv8)
    ensures Put(Put(rows, Placement(r, c, false)), Placement(r, c, true)) == Put(rows, Placement(r, c, true))
  {
  }

  /** The row of slot `q` is one of rows 5..0. */
  lemma SlotRowBelowSix(q: bv8)
    requires q < SLOTS
    ensures (5 - q) as nat < 6
  {
    // Split by literal value: a shift or bv8 conversion by a constant is cheap for the solver.
    if q == 0 { } else if q == 1 { } else if q == 2 { } else if q == 3 { } else if q == 4 { } else { }
  }

  /** The layout writes rows 5..0 only: the length and rows 6 and up stay as they were. */
  lemma {:induction false} LayoutKeepsUpperRows(rows: seq<bv8>, s: seq<bv8>, numParser: bool, l: nat, p: bv8)
    requires NUL in s && l <= FirstNul(s) && p <= SLOTS && (p == 0 || l > 0)
    ensures |LayoutFrom(rows, s, numParser, l, p)| == |rows|
    ensures forall j :: 6 <= j < |rows| ==> LayoutFrom(rows, s, numParser, l, p)[j] == rows[j]
    decreases |s| - l
  {
    if p < SLOTS {
      var (b, dp, q) := Step(s, numParser, l, p);
      if b != NUL {
        var w := Placement(5 - q, b, dp);
        PutEffect(rows, w);
        SlotRowBelowSix(q);
        LayoutKeepsUpperRows(Put(rows, w), s, numParser, l + 1, q + 1);
      }
    }
  }

  /**
    From a cell boundary on, the loop draws the cells of the rest of the
    string, cell k at row 5-k. A boundary is any read index except a '.' in
    numeric mode read after the first slot, which belongs to the cell before it.
   */
  lemma {:induction false} LayoutFromIsPaint(rows: seq<bv8>, s: seq<bv8>, numParser: bool, l: nat, p: bv8)
    requires NUL in s && l <= FirstNul(s) && p <= SLOTS && (p == 0 || l > 0)
    requires numParser ==> NoDoubleDots(s)
    requires !(numParser && s[l] == DOT && p != 0)
    ensures LayoutFrom(rows, s, numParser, l, p) == Paint(rows, TextCells(s, numParser, l, p == 0), p)
    decreases |s| - l
  {
    if p < SLOTS && s[l] != NUL {
      if numParser && s[l] == DOT {
        var next := Put(rows, Placement(5, DIGIT_ZERO, true));
        LeadingPointStep(rows, s, l);
        LeadingPointPass(rows, s, l);
        assert s[l + 1] != DOT by {
          if l + 1 < FirstNul(s) { assert !(s[l] == DOT && s[l + 1] == DOT); }
        }
        LayoutFromIsPaint(next, s, numParser, l + 1, 1);
      } else if numParser && s[l + 1] == DOT && p < 5 {
        var next := Put(rows, Placement(5 - p, s[l], true));
        PointedStep(rows, s, l, p);
        PointedPass(rows, s, l, p);
        assert s[l + 2] != DOT by {
          if l + 2 < FirstNul(s) { assert !(s[l + 1] == DOT && s[l + 2] == DOT); }
        }
        LayoutFromIsPaint(next, s, numParser, l + 2, p + 1);
      } else if numParser && s[l + 1] == DOT {
        LastPointedPass(rows, s, l);
      } else {
        var next := Put(rows, Placement(5 - p, s[l], false));
        PlainPass(rows, s, numParser, l, p);
        LayoutFromIsPaint(next, s, numParser, l + 1, p + 1);
      }
    }
  }

  /** A leading '.' in numeric mode, for any string: one pass draws '0.' at row 5 and takes slot 0. */
  lemma LeadingPointStep(rows: seq<bv8>, s: seq<bv8>, l: nat)
    requires NUL in s && l <= FirstNul(s) && s[l] == DOT
    ensures l < FirstNul(s)
    ensures LayoutFrom(rows, s, true, l, 0) == LayoutFrom(Put(rows, Placement(5, DIGIT_ZERO, true)), s, true, l + 1, 1)
  {
  }

  /**
    A '.' in numeric mode after the first slot, for any string: the pass
    re-renders the byte before it, with the point, at the previous slot's
    row and takes no slot of its own. When that byte is itself a '.', the
    '.' is what is re-rendered.
   */
  lemma FoldedPointStep(rows: seq<bv8>, s: seq<bv8>, l: nat, p: bv8)
    requires NUL in s && l <= FirstNul(s) && 0 < p < SLOTS && l > 0 && s[l] == DOT
    ensures l < FirstNul(s)
    ensures LayoutFrom(rows, s, true, l, p) == LayoutFrom(Put(rows, Placement(5 - (p - 1), s[l - 1], true)), s, true, l + 1, p)
  {
    FirstNulIsFirst(s, l - 1);
  }

  /**
    A byte followed by '.' in numeric mode below the sixth slot, for any
    string: the two passes leave the byte with its point at its own row,
    and the '.' takes no slot.
   */
  lemma PointedStep(rows: seq<bv8>, s: seq<bv8>, l: nat, p: bv8)
    requires NUL in s && l <= FirstNul(s) && p < 5 && (p == 0 || l > 0)
    requires s[l] != NUL && s[l] != DOT && s[l + 1] == DOT
    ensures l + 2 <= FirstNul(s)
    ensures LayoutFrom(rows, s, true, l, p) == LayoutFrom(Put(rows, Placement(5 - p, s[l], true)), s, true, l + 2, p + 1)
  {
    var once := Put(rows, Placement(5 - p, s[l], false));
    assert LayoutFrom(rows, s, true, l, p) == LayoutFrom(once, s, true, l + 1, p + 1);
    FoldedPointStep(once, s, l + 1, p + 1);
    PutPointOver(rows, 5 - p, s[l]);
  }

  /** In the cell reading a leading '.' is the first cell, '0.'. */
  lemma LeadingPointPass(rows: seq<bv8>, s: seq<bv8>, l: nat)
    requires NUL in s && l <= FirstNul(s) && s[l] == DOT
    ensures l + 1 <= FirstNul(s)
    ensures Paint(rows, TextCells(s, true, l, true), 0)
         == Paint(Put(rows, Placement(5, DIGIT_ZERO, true)), TextCells(s, true, l + 1, false), 1)
  {
    PaintCons(rows, Cell(DIGIT_ZERO, true), TextCells(s, true, l + 1, false), 0);
  }

  /** In the cell reading a byte followed by '.' is one cell with its point set. */
  lemma PointedPass(rows: seq<bv8>, s: seq<bv8>, l: nat, p: bv8)
    requires NUL in s && l <= FirstNul(s) && p < 5 && (p == 0 || l > 0)
    requires s[l] != NUL && s[l] != DOT && s[l + 1] == DOT
    ensures l + 2 <= FirstNul(s)
    ensures Paint(rows, TextCells(s, true, l, p == 0), p)
         == Paint(Put(rows, Placement(5 - p, s[l], true)), TextCells(s, true, l + 2, false), p + 1)
  {
    PaintCons(rows, Cell(s[l], true), TextCells(s, true, l + 2, false), p);
  }

  /** A byte followed by '.' in the sixth slot: the loop stops before it reads the '.'. */
  lemma LastPointedPass(rows: seq<bv8>, s: seq<bv8>, l: nat)
    requires NUL in s && l <= FirstNul(s) && l > 0
    requires s[l] != NUL && s[l] != DOT && s[l + 1] == DOT
    ensures LayoutFrom(rows, s, true, l, 5) == Put(rows, Placement(0, s[l], false))
    ensures Paint(rows, TextCells(s, true, l, false), 5) == Put(rows, Placement(0, s[l], false))
  {
    PaintCons(rows, Cell(s[l], true), TextCells(s, true, l + 2, false), 5);
  }

  /** Any other byte: one pass draws it without a point, and it is a cell of its own. */
  lemma PlainPass(rows: seq<bv8>, s: seq<bv8>, numParser: bool, l: nat, p: bv8)
    requires NUL in s && l <= FirstNul(s) && p < SLOTS && (p == 0 || l > 0)
    requires s[l] != NUL && !(numParser && s[l] == DOT) && !(numParser && s[l + 1] == DOT)
    ensures l + 1 <= FirstNul(s)
    ensures LayoutFrom(rows, s, numParser, l, p) == LayoutFrom(Put(rows, Placement(5 - p, s[l], false)), s, numParser, l + 1, p + 1)
    ensures Paint(rows, TextCells(s, numParser, l, p == 0), p)
         == Paint(Put(rows, Placement(5 - p, s[l], false)), TextCells(s, numParser, l + 1, false), p + 1)
  {
    PaintCons(rows, Cell(s[l], false), TextCells(s, numParser, l + 1, false), p);
  }

  /** Painting a first cell below the sixth slot puts it at row 5-p. */
  lemma PaintCons(rows: seq<bv8>, c: Cell, cells: seq<Cell>, p: bv8)
    requires p < SLOTS
    ensures Paint(rows, [c] + cells, p) == Paint(Put(rows, Placement(5 - p, c.c, c.dp && p < SLOTS - 1)), cells, p + 1)
  {
    assert ([c] + cells)[1..] == cells;
  }

  /**
    SetString draws the display cells of the string, the first at row 5:
    in numeric mode under the assumption that no two points are adjacent,
    in plain mode always.
   */
  lemma LayoutIsPaint(rows: seq<bv8>, s: seq<bv8>, numParser: bool)
    requires NUL in s && (numParser ==> NoDoubleDots(s))
    ensures Layout(rows, s, numParser) == Paint(rows, TextCells(s, numParser, 0, true), 0)
  {
    LayoutFromIsPaint(rows, s, numParser, 0, 0);
  }

  /** In plain mode every byte before the terminator is a cell of its own, without a point. */
  lemma {:induction false} PlainCells(s: seq<bv8>, l: nat, first: bool)
    requires NUL in s && l <= FirstNul(s)
    ensures |TextCells(s, false, l, first)| == FirstNul(s) - l
    ensures forall k :: 0 <= k < FirstNul(s) - l ==> TextCells(s, false, l, first)[k] == Cell(s[l + k], false)
    decreases |s| - l
  {
    if s[l] != NUL {
      PlainCells(s, l + 1, false);
    } else if l < FirstNul(s) {
      FirstNulIsFirst(s, l);
    }
  }

  /** Slot `p` is row 5-p. */
  lemma SlotRowValue(p: bv8)
    requires p < SLOTS
    ensures (5 - p) as nat == 5 - p as nat
  {
    // Split by literal value: a shift or bv8 conversion by a constant is cheap for the solver.
    if p == 0 { } else if p == 1 { } else if p == 2 { } else if p == 3 { } else if p == 4 { } else { }
  }

  /** What a drawn cell leaves in its row: its glyph, except the code 0x80, which leaves the old byte. */
  function CellRow(prev: bv8, cell: Cell, point: bool): bv8
  {
    if cell.c == 0x80 then prev else Glyph(cell.c, point)
  }

  /** Painting from slot `p` on leaves the rows of the earlier slots, and rows 6 and up, alone. */
  lemma {:induction false} PaintKeeps(rows: seq<bv8>, cells: seq<Cell>, p: bv8, j: nat)
    requires p <= SLOTS && j < |rows| && j + p as nat > 5
    ensures |Paint(rows, cells, p)| == |rows|
    ensures Paint(rows, cells, p)[j] == rows[j]
    decreases |cells|
  {
    if p < SLOTS && cells != [] {
      var w := Placement(5 - p, cells[0].c, cells[0].dp && p < SLOTS - 1);
      SlotRowValue(p);
      PutEffect(rows, w);
      PaintKeeps(Put(rows, w), cells[1..], p + 1, j);
    }
  }

  /**
    Row 5-k after painting from slot `p`: the cell of slot k when there is
    one, drawn with its point unless it is the sixth; otherwise the old row.
   */
  lemma {:induction false} PaintRow(rows: seq<bv8>, cells: seq<Cell>, p: bv8, k: nat)
    requires p <= SLOTS && p as nat <= k < 6 && |rows| == MAX_ROW
    ensures |Paint(rows, cells, p)| == |rows|
    ensures Paint(rows, cells, p)[5 - k]
         == if k - p as nat < |cells| then CellRow(rows[5 - k], cells[k - p as nat], cells[k - p as nat].dp && k < 5)
            else rows[5 - k]
    decreases |cells|
  {
    if cells != [] {
      var w := Placement(5 - p, cells[0].c, cells[0].dp && p < SLOTS - 1);
      SlotRowValue(p);
      PutEffect(rows, w);
      if k == p as nat {
        PaintKeeps(Put(rows, w), cells[1..], p + 1, 5 - k);
      } else {
        PaintRow(Put(rows, w), cells[1..], p + 1, k);
      }
    }
  }

  /**
    In plain mode the k-th byte of the string, for k below 6, lands on row
    5-k without a point (rows of code 0x80 keep their byte); the rows of
    slots past the end of the string keep their old bytes.
   */
  lemma PlainLayoutRow(rows: seq<bv8>, s: seq<bv8>, k: nat)
    requires NUL in s && |rows| == MAX_ROW && k < 6
    ensures |Layout(rows, s, false)| == |rows|
    ensures Layout(rows, s, false)[5 - k]
         == if k < FirstNul(s) then CellRow(rows[5 - k], Cell(s[k], false), false) else rows[5 - k]
  {
    LayoutKeepsUpperRows(rows, s, false, 0, 0);
    LayoutIsPaint(rows, s, false);
    PlainCells(s, 0, true);
    PaintRow(rows, TextCells(s, false, 0, true), 0, k);
  }

  /**
    From loop state (l, p) the remaining passes write only slots below
    p + (FirstNul(s) - l): each pass reads one byte and advances the slot by
    at most one.
   */
  lemma {:induction false} LayoutLeavesLaterSlots(rows: seq<bv8>, s: seq<bv8>, numParser: bool, l: nat, p: bv8, k: nat)
    requires NUL in s && l <= FirstNul(s) && p <= SLOTS && (p == 0 || l > 0)
    requires |rows| == MAX_ROW && k < 6 && p as nat + (FirstNul(s) - l) <= k
    ensures |LayoutFrom(rows, s, numParser, l, p)| == |rows|
    ensures LayoutFrom(rows, s, numParser, l, p)[5 - k] == rows[5 - k]
    decreases |s| - l
  {
    LayoutKeepsUpperRows(rows, s, numParser, l, p);
    if p < SLOTS {
      var (b, dp, q) := Step(s, numParser, l, p);
      if b != NUL {
        var w := Placement(5 - q, b, dp);
        SlotRowValue(q);
        PutEffect(rows, w);
        LayoutLeavesLaterSlots(Put(rows, w), s, numParser, l + 1, q + 1, k);
      }
    }
  }

  /** In either mode, the rows of the slots past the terminator keep their old bytes. */
  lemma TailRowsKept(rows: seq<bv8>, s: seq<bv8>, numParser: bool, k: nat)
    requires NUL in s && |rows| == MAX_ROW && FirstNul(s) <= k < 6
    ensures |Layout(rows, s, numParser)| == |rows|
    ensures Layout(rows, s, numParser)[5 - k] == rows[5 - k]
  {
    LayoutLeavesLaterSlots(rows, s, numParser, 0, 0, k);
  }

  // Worked examples of the numeric layout, on a buffer of 16 rows.

  /** "1.5" in numeric mode shows '1.' at row 5 and '5' at row 4. */
  lemma NumberWithPoint(rows: seq<bv8>)
    requires |rows| == MAX_ROW
    ensures Layout(rows, [0x31, DOT, 0x35, NUL], true)
         == rows[5 := SEG_B | SEG_C | SEG_DP][4 := SEG_A | SEG_F | SEG_G | SEG_C | SEG_D]
  {
    var s: seq<bv8> := [0x31, DOT, 0x35, NUL];
    var r1 := Put(rows, Placement(5, 0x31, false));
    var r2 := Put(r1, Placement(5, 0x31, true));
    var r3 := Put(r2, Placement(4, 0x35, false));
    assert FirstNul(s) == 3;
    assert LayoutFrom(rows, s, true, 0, 0) == LayoutFrom(r1, s, true, 1, 1);
    assert LayoutFrom(r1, s, true, 1, 1) == LayoutFrom(r2, s, true, 2, 1);
    assert LayoutFrom(r2, s, true, 2, 1) == LayoutFrom(r3, s, true, 3, 2) == r3;
  }

  /** ".5" in numeric mode shows a leading '0.' at row 5 and '5' at row 4. */
  lemma LeadingPoint(rows: seq<bv8>)
    requires |rows| == MAX_ROW
    ensures Layout(rows, [DOT, 0x35, NUL], true)
         == rows[5 := SEG_A | SEG_B | SEG_C | SEG_D | SEG_E | SEG_F | SEG_DP][4 := SEG_A | SEG_F | SEG_G | SEG_C | SEG_D]
  {
    var s: seq<bv8> := [DOT, 0x35, NUL];
    var r1 := Put(rows, Placement(5, DIGIT_ZERO, true));
    var r2 := Put(r1, Placement(4, 0x35, false));
    assert FirstNul(s) == 2;
    assert LayoutFrom(rows, s, true, 0, 0) == LayoutFrom(r1, s, true, 1, 1);
    assert LayoutFrom(r1, s, true, 1, 1) == LayoutFrom(r2, s, true, 2, 2) == r2;
  }

  /**
    "1.." in numeric mode: the second '.' re-draws the byte before it, the
    first '.', with a point at row 5, so the '1' is lost and only the point
    remains.
   */
  lemma DoublePointDropsDigit(rows: seq<bv8>)
    requires |rows| == MAX_ROW
    ensures Layout(rows, [0x31, DOT, DOT, NUL], true) == rows[5 := SEG_DP]
  {
    var s: seq<bv8> := [0x31, DOT, DOT, NUL];
    var r1 := Put(rows, Placement(5, 0x31, false));
    var r2 := Put(r1, Placement(5, 0x31, true));
    var r3 := Put(r2, Placement(5, DOT, true));
    assert FirstNul(s) == 3;
    assert LayoutFrom(rows, s, true, 0, 0) == LayoutFrom(r1, s, true, 1, 1);
    assert LayoutFrom(r1, s, true, 1, 1) == LayoutFrom(r2, s, true, 2, 1);
    assert LayoutFrom(r2, s, true, 2, 1) == LayoutFrom(r3, s, true, 3, 1) == r3;
  }

  /** In plain mode "1.5" is three cells: '1' at row 5, a bare point at row 4 and '5' at row 3. */
  lemma PlainPoint(rows: seq<bv8>)
    requires |rows| == MAX_ROW
    ensures Layout(rows, [0x31, DOT, 0x35, NUL], false)
         == rows[5 := SEG_B | SEG_C][4 := SEG_DP][3 := SEG_A | SEG_F | SEG_G | SEG_C | SEG_D]
  {
    var s: seq<bv8> := [0x31, DOT, 0x35, NUL];
    var r1 := Put(rows, Placement(5, 0x31, false));
    var r2 := Put(r1, Placement(4, DOT, false));
    var r3 := Put(r2, Placement(3, 0x35, false));
    assert FirstNul(s) == 3;
    assert LayoutFrom(rows, s, false, 0, 0) == LayoutFrom(r1, s, false, 1, 1);
    assert LayoutFrom(r1, s, false, 1, 1) == LayoutFrom(r2, s, false, 2, 2);
    assert LayoutFrom(r2, s, false, 2, 2) == LayoutFrom(r3, s, false, 3, 3) == r3;
  }

  // ---------------------------------------------------------------------
  // Flush

  /** The frames that send rows 0..n-1: row i goes to chip address 2i. */
  function Flush(rows: seq<bv8>, n: nat): seq<Event>
    requires n <= |rows| && n <= MAX_ROW
  {
    if n == 0 then [] else Flush(rows, n - 1) + WriteFrame((2 * (n - 1)) as bv8, rows[n - 1], MODE_WRITE)
  }

  /** One more row written extends the flush by that row's frame. */
  lemma FlushStep(t: seq<Event>, rows: seq<bv8>, i: nat)
    requires i < |rows| && i < MAX_ROW
    ensures t + Flush(rows, i) + WriteFrame((2 * i) as bv8, rows[i], MODE_WRITE) == t + Flush(rows, i + 1)
  {
  }

  /** The frame bits of rows 0..n-1, in the order they are sent. */
  function FlushPayloads(rows: seq<bv8>, n: nat): (fs: seq<seq<bool>>)
    requires n <= |rows| && n <= MAX_ROW
    ensures |fs| == n
  {
    if n == 0 then [] else FlushPayloads(rows, n - 1) + [WritePayload((2 * (n - 1)) as bv8, rows[n - 1], MODE_WRITE)]
  }

  /** The flush is one write frame per row, in row order. */
  lemma {:induction false} FlushIsFrames(rows: seq<bv8>, n: nat)
    requires n <= |rows| && n <= MAX_ROW
    ensures Flush(rows, n) == Frames(FlushPayloads(rows, n))
  {
    if n > 0 {
      var prev, last := FlushPayloads(rows, n - 1), WritePayload((2 * (n - 1)) as bv8, rows[n - 1], MODE_WRITE);
      FlushIsFrames(rows, n - 1);
      assert FlushPayloads(rows, n) == prev + [last];
      FramesAppend(prev, [last]);
      FramesOfOne(last);
    }
  }

  lemma FramesOfOne(f: seq<bool>)
    ensures Frames([f]) == Framed(f)
  {
    assert Frames([f]) == Framed(f) + Frames([]);
  }

  /** Frame i of the flush carries row i to address 2i. */
  lemma {:induction false} FlushPayloadsAt(rows: seq<bv8>, n: nat)
    requires n <= |rows| && n <= MAX_ROW
    ensures forall i :: 0 <= i < n ==> FlushPayloads(rows, n)[i] == WritePayload((2 * i) as bv8, rows[i], MODE_WRITE)
  {
    if n > 0 {
      FlushPayloadsAt(rows, n - 1);
    }
  }

  /** The address of row i keeps its value in the six address bits the frame carries. */
  lemma RowAddress(i: nat)
    requires i < MAX_ROW
    ensures ((2 * i) as bv8) & 0x3F == (2 * i) as bv8
  {
    // Split by literal value: a shift or bv8 conversion by a constant is cheap for the solver.
    if i < 8 {
      if i == 0 { } else if i == 1 { } else if i == 2 { } else if i == 3 { }
      else if i == 4 { } else if i == 5 { } else if i == 6 { } else { }
    } else {
      if i == 8 { } else if i == 9 { } else if i == 10 { } else if i == 11 { }
      else if i == 12 { } else if i == 13 { } else if i == 14 { } else { }
    }
  }

  /**
    What the chip reads from a flush of n rows: n data writes, the i-th with
    the write tag 101, address 2i and the byte of row i.
   */
  lemma FlushRoundTrip(rows: seq<bv8>, n: nat)
    requires n <= |rows| && n <= MAX_ROW
    ensures var d := DecodeWriteTrace(Flush(rows, n));
      d.Some? && |d.value| == n &&
      forall i :: 0 <= i < n ==> d.value[i] == WriteOp(5, (2 * i) as bv8, rows[i])
  {
    var fs := FlushPayloads(rows, n);
    var ws := seq(n, i requires 0 <= i < n => WriteOp(5, (2 * i) as bv8, rows[i]));
    FlushIsFrames(rows, n);
    FlushPayloadsAt(rows, n);
    DecodeFramesOfFrames(fs);
    forall i | 0 <= i < n
      ensures DecodeWrite(fs[i]) == Some(ws[i])
    {
      WriteRoundTrip((2 * i) as bv8, rows[i], MODE_WRITE);
      RowAddress(i);
      ModeTagPrefixes();
    }
    DecodeWriteListOf(fs, ws);
  }

  // ---------------------------------------------------------------------
  // The driver object

  /** The commands of the bring-up sequence, in the order they must be sent. */
  const INIT_COMMANDS: seq<bv8> := [CMD_SYS_EN, CMD_RC_256K, CMD_BIAS_T_4, CMD_LCD_ON]

  class Driver {
    /** The row buffer: one segment byte per row. */
    var rows: array<bv8>
    /** Every line event sent so far. */
    var trace: seq<Event>

    ghost predicate Valid()
      reads this
    {
      rows.Length == MAX_ROW
    }

    /** The buffer is a zero-initialised static array; nothing has been sent yet. */
    constructor ()
      ensures Valid() && fresh(rows)
      ensures rows[..] == seq(MAX_ROW, _ => 0) && trace == []
    {
      rows := new bv8[MAX_ROW](_ => 0);
      trace := [];
    }

    /** Clocks out the top `cnt` bits of `data`, most significant first. */
    method WriteBits(data: bv8, cnt: bv8)
      modifies this`trace
      ensures trace == old(trace) + Clocked(MsbBits(data, cnt as nat))
    {
      var d := data;
      var i: nat := 0;
      while i < cnt as nat
        invariant i <= cnt as nat
        invariant d == ShiftRegister(data, i)
        invariant trace == old(trace) + Clocked(MsbBits(data, i))
      {
        ClockStep(data, i);
        trace := trace + [WrLow, Data(d & 0x80 != 0), WrHigh];
        i := i + 1;
        d := d << 1;
      }
    }

    /** One data-write frame; `mode` is the write tag unless the caller gives another. */
    method Write(adr: bv8, data: bv8, mode: bv8 := MODE_WRITE)
      modifies this`trace
      ensures trace == old(trace) + WriteFrame(adr, data, mode)
    {
      trace := trace + [CsLow];
      WriteBits(mode, 3);
      WriteBits(adr << 2, 6);
      WriteBits(data, 8);
      trace := trace + [CsHigh];
      FramedOfThree(old(trace), MsbBits(mode, 3), MsbBits(adr << 2, 6), MsbBits(data, 8));
    }

    /** One command frame. */
    method Command(cmd: bv8)
      modifies this`trace
      ensures trace == old(trace) + CommandFrame(cmd)
    {
      trace := trace + [CsLow];
      WriteBits(MODE_CMD, 3);
      WriteBits(cmd, 8);
      WriteBits(0, 1);
      trace := trace + [CsHigh];
      FramedOfThree(old(trace), MsbBits(MODE_CMD, 3), MsbBits(cmd, 8), MsbBits(0, 1));
    }

    /** The bring-up commands: system enable, RC oscillator, bias, LCD on. */
    method Init()
      modifies this`trace
      ensures trace == old(trace) + CommandTrace(INIT_COMMANDS)
    {
      Command(CMD_SYS_EN);
      Command(CMD_RC_256K);
      Command(CMD_BIAS_T_4);
      Command(CMD_LCD_ON);
      CommandTraceOfFour(old(trace), CMD_SYS_EN, CMD_RC_256K, CMD_BIAS_T_4, CMD_LCD_ON);
    }

    /** Sends all rows, row i to chip address 2i. */
    method SendDisplay()
      requires Valid()
      modifies this`trace
      ensures trace == old(trace) + Flush(rows[..], MAX_ROW)
    {
      ghost var t0, rs := trace, rows[..];
      var i: nat := 0;
      while i < MAX_ROW
        invariant i <= MAX_ROW && rows[..] == rs
        invariant trace == t0 + Flush(rs, i)
      {
        Write((2 * i) as bv8, rows[i]);
        FlushStep(t0, rs, i);
        i := i + 1;
      }
    }

    /** Sets one row of the buffer; rows past the end are ignored. */
    method SetRow(row: bv8, data: bv8)
      requires Valid()
      modifies rows
      ensures Valid()
      ensures rows[..] == WithRow(old(rows[..]), row as nat, data)
    {
      if !(row as nat <= MAX_ROW - 1) {
        return;
      }
      rows[row] := data;
    }

    /**
      Sets row `pos` to the glyph of `c`, with the decimal point when `dp`.
      `ok` is false when the lookup would leave the table; nothing is written then.
     */
    method SetChar(pos: bv8, c: bv8, dp: bool := false) returns (ok: bool)
      requires Valid()
      modifies rows
      ensures Valid()
      ensures ok == CharRow(c, dp).Some?
      ensures rows[..] == Put(old(rows[..]), Placement(pos, c, dp))
    {
      var index := c;
      if index > CHARMAP_SIZE {
        index := BLANK_INDEX;
      }
      if index >= CHARMAP_SIZE {
        // The source reads the flash byte after the table here.
        ok := false;
        return;
      }
      var v := CharmapEntry(index);
      if dp {
        v := v | SEG_DP;
      }
      SetRow(pos, v);
      ok := true;
    }

    /**
      Lays out the C string `s` right to left over rows 5..0. The position
      argument is accepted and not used.
     */
    method SetString(pos: bv8, s: seq<bv8>, numParser: bool := false)
      requires Valid() && NUL in s
      modifies rows
      ensures Valid()
      ensures rows[..] == Layout(old(rows[..]), s, numParser)
    {
      ghost var target := Layout(rows[..], s, numParser);
      var posCnd: bv8 := 0;
      var l: nat := 0;
      while posCnd < SLOTS
        invariant LayoutLoop(rows[..], target, s, numParser, l, posCnd)
        decreases |s| - l
      {
        ghost var before := rows[..];
        var (b, dpFlag, slot) := Step(s, numParser, l, posCnd);
        if b != NUL {
          var ok := SetChar(5 - slot, b, dpFlag);
          LayoutPass(before, rows[..], target, s, numParser, l, posCnd, b, dpFlag, slot);
        } else {
          LayoutStops(rows[..], target, s, numParser, l, posCnd);
          break;
        }
        posCnd := slot + 1;
        l := l + 1;
      }
    }

    /** Sends the LCD-on command. */
    method LCDOn()
      modifies this`trace
      ensures trace == old(trace) + CommandFrame(CMD_LCD_ON)
    {
      Command(CMD_LCD_ON);
    }

    /** Sends the LCD-off command. */
    method LCDOff()
      modifies this`trace
      ensures trace == old(trace) + CommandFrame(CMD_LCD_OFF)
    {
      Command(CMD_LCD_OFF);
    }
  }

  // ---------------------------------------------------------------------
  // Lemmas used by the methods

  /** The byte register of the bit loop after `i` shifts to the left. */
  function ShiftRegister(data: bv8, i: nat): bv8
  {
    if i < 8 then data << i else 0
  }

  /**
    One turn of the bit loop: its top bit is the next bit of the run, and
    shifting the register gives the register of the next turn.
   */
  lemma ClockStep(data: bv8, i: nat)
    ensures ShiftRegister(data, i) << 1 == ShiftRegister(data, i + 1)
    ensures Clocked(MsbBits(data, i)) + [WrLow, Data(ShiftRegister(data, i) & 0x80 != 0), WrHigh]
         == Clocked(MsbBits(data, i + 1))
  {
    ShiftOnce(data, i);
    var b := i < 8 && TestBit(data, 7 - i);
    TopBitAfterShift(data, i);
    assert (ShiftRegister(data, i) & 0x80 != 0) == b;
    MsbBitsSnoc(data, i);
    ClockedAppend(MsbBits(data, i), [b]);
    assert Clocked([b]) == [WrLow, Data(b), WrHigh];
  }

  /** Shifting the register once more gives the register of the next turn. */
  lemma ShiftOnce(data: bv8, i: nat)
    ensures ShiftRegister(data, i) << 1 == ShiftRegister(data, i + 1)
  {
    // Split by literal value: a shift or bv8 conversion by a constant is cheap for the solver.
    if i == 0 { } else if i == 1 { } else if i == 2 { } else if i == 3 { }
    else if i == 4 { } else if i == 5 { } else if i == 6 { } else if i == 7 { }
  }

  /** The top bit of the register after i shifts is bit 7-i of the byte. */
  lemma TopBitAfterShift(data: bv8, i: nat)
    ensures i < 8 ==> ((data << i) & 0x80 != 0) == TestBit(data, 7 - i)
  {
    // Split by literal value: a shift or bv8 conversion by a constant is cheap for the solver.
    if i == 0 { } else if i == 1 { } else if i == 2 { } else if i == 3 { }
    else if i == 4 { } else if i == 5 { } else if i == 6 { } else if i == 7 { }
  }

  /** A frame of three bit runs is CS low, the three clocked runs, CS high. */
  lemma FramedOfThree(t: seq<Event>, a: seq<bool>, b: seq<bool>, c: seq<bool>)
    ensures t + [CsLow] + Clocked(a) + Clocked(b) + Clocked(c) + [CsHigh] == t + Framed(a + b + c)
  {
    ClockedAppend(a, b);
    ClockedAppend(a + b, c);
    RegroupFrame(t, [CsLow], Clocked(a), Clocked(b), Clocked(c), [CsHigh]);
  }

  lemma RegroupFrame(t: seq<Event>, u: seq<Event>, a: seq<Event>, b: seq<Event>, c: seq<Event>, v: seq<Event>)
    ensures t + u + a + b + c + v == t + (u + (a + b + c) + v)
  {
  }

  /** Four commands in a row leave the trace of the four-command list. */
  lemma CommandTraceOfFour(t: seq<Event>, a: bv8, b: bv8, c: bv8, d: bv8)
    ensures t + CommandFrame(a) + CommandFrame(b) + CommandFrame(c) + CommandFrame(d) == t + CommandTrace([a, b, c, d])
  {
    ConsFour(a, b, c, d);
    CommandTraceCons(d, []);
    CommandTraceCons(c, [d]);
    CommandTraceCons(b, [c, d]);
    CommandTraceCons(a, [b, c, d]);
    Regroup(t, CommandFrame(a), CommandFrame(b), CommandFrame(c), CommandFrame(d));
  }

  lemma ConsFour(a: bv8, b: bv8, c: bv8, d: bv8)
    ensures [d] + [] == [d] && [c] + [d] == [c, d] && [b] + [c, d] == [b, c, d] && [a] + [b, c, d] == [a, b, c, d]
  {
  }

  lemma Regroup(t: seq<Event>, w: seq<Event>, x: seq<Event>, y: seq<Event>, z: seq<Event>)
    ensures t + w + x + y + z == t + (w + (x + (y + (z + []))))
  {
    assert z + [] == z;
  }

}
