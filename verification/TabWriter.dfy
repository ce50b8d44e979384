/** The column writer of the command line tools: widths are kept one cell at a time, and flushing
    lines every column up. */
module TabWriter {
  type Row = seq<string>

  function Max(a: nat, b: nat): nat { if a >= b then a else b }

  /** The longest cell in column `k`, 0 if there is none. */
  function Longest(table: seq<Row>, k: nat): nat
    decreases |table|
  {
    if table == [] then 0
    else
      var row := table[|table| - 1];
      Max(Longest(table[..|table| - 1], k), if k < |row| then |row[k]| else 0)
  }

  /** The number of cells of the longest row. */
  function Columns(table: seq<Row>): nat
    decreases |table|
  {
    if table == [] then 0 else Max(Columns(table[..|table| - 1]), |table[|table| - 1]|)
  }

  function Widths(table: seq<Row>): (ws: seq<nat>) {
    seq(Columns(table), k requires 0 <= k < Columns(table) => Longest(table, k))
  }

  lemma {:induction false} LongestBounds(table: seq<Row>, r: nat, k: nat)
    requires r < |table| && k < |table[r]|
    ensures k < Columns(table) && |table[r][k]| <= Longest(table, k)
    decreases |table|
  {
    if r < |table| - 1 { LongestBounds(table[..|table| - 1], r, k); }
  }

  lemma {:induction false} LongestOccurs(table: seq<Row>, k: nat)
    requires Longest(table, k) > 0
    ensures exists r :: 0 <= r < |table| && k < |table[r]| && |table[r][k]| == Longest(table, k)
    decreases |table|
  {
    var n := |table| - 1;
    if k < |table[n]| && |table[n][k]| == Longest(table, k) {
    } else {
      LongestOccurs(table[..n], k);
      var r :| 0 <= r < n && k < |table[..n][r]| && |table[..n][r][k]| == Longest(table[..n], k);
      assert table[r] == table[..n][r];
    }
  }

  function Repeat(c: char, n: nat): (s: string)
    ensures |s| == n && forall i | 0 <= i < n :: s[i] == c
  {
    seq(n, i => c)
  }

  /** Left-aligned in a field of the given width. */
  function Pad(cell: string, width: nat, fill: char): string {
    if |cell| >= width then cell else cell + Repeat(fill, width - |cell|)
  }

  function Line(row: Row, ws: seq<nat>, fill: char, separator: char): string
    requires |row| <= |ws|
    decreases |row|
  {
    if row == [] then ""
    else
      var n := |row| - 1;
      var last := Pad(row[n], ws[n], fill);
      if n == 0 then last else Line(row[..n], ws, fill, separator) + [separator] + last
  }

  predicate Fits(table: seq<Row>, ws: seq<nat>) {
    forall row | row in table :: |row| <= |ws|
  }

  function Output(table: seq<Row>, ws: seq<nat>, fill: char, separator: char): string
    requires Fits(table, ws)
    decreases |table|
  {
    if table == [] then ""
    else
      var n := |table| - 1;
      var last := Line(table[n], ws, fill, separator);
      if n == 0 then last else Output(table[..n], ws, fill, separator) + "\n" + last
  }

  lemma {:induction false} RowsFit(table: seq<Row>)
    ensures Fits(table, Widths(table))
    decreases |table|
  {
    if table != [] {
      var n := |table| - 1;
      RowsFit(table[..n]);
      forall row | row in table ensures |row| <= Columns(table) {
        assert row != table[n] ==> row in table[..n];
      }
    }
  }

  lemma NothingPrinted(ws: seq<nat>, fill: char, separator: char)
    ensures Output([], ws, fill, separator) == "" && Line([], ws, fill, separator) == ""
  {
  }

  lemma LineGrows(row: Row, k: nat, ws: seq<nat>, fill: char, separator: char)
    requires k < |row| <= |ws|
    ensures Line(row[..k + 1], ws, fill, separator) ==
              Line(row[..k], ws, fill, separator) + (if k != 0 then [separator] else "") + Pad(row[k], ws[k], fill)
  {
    assert row[..k + 1][..k] == row[..k];
  }

  lemma OutputGrows(table: seq<Row>, r: nat, ws: seq<nat>, fill: char, separator: char)
    requires r < |table| && Fits(table, ws)
    ensures Output(table[..r + 1], ws, fill, separator) ==
              Output(table[..r], ws, fill, separator) + (if r != 0 then "\n" else "")
              + Line(table[r], ws, fill, separator)
  {
    assert table[..r + 1][..r] == table[..r];
  }

  lemma WidthsAfterRow(table: seq<Row>)
    ensures Widths(table + [[]]) == Widths(table)
  {
    assert (table + [[]])[..|table|] == table;
  }

  lemma {:induction false} NoSuchColumn(table: seq<Row>, k: nat)
    requires k >= Columns(table)
    ensures Longest(table, k) == 0
    decreases |table|
  {
    if table != [] { NoSuchColumn(table[..|table| - 1], k); }
  }

  /** One more cell in the last row: at most its own column widens, and at most one column appears. */
  lemma WidthsAfterCell(table: seq<Row>, cell: string)
    requires table != []
    ensures var n := |table| - 1;
            var k := |table[n]|;
            var ws := Widths(table);
            var grown := if k == |ws| then ws + [0] else ws;
            && k <= |ws|
            && Widths(table[n := table[n] + [cell]]) == grown[k := Max(grown[k], |cell|)]
  {
    var n := |table| - 1;
    var k := |table[n]|;
    var after := table[n := table[n] + [cell]];
    assert after[..n] == table[..n];
    if k == Columns(table) { NoSuchColumn(table, k); }
  }

  class Writer {
    var fill: char
    var separator: char
    var widths: seq<nat>
    /** Index of the width of the cell to be written next. */
    var column: nat
    var table: seq<Row>

    ghost predicate Valid()
      reads this
    {
      table != [] && widths == Widths(table) && column == |table[|table| - 1]|
    }

    constructor ()
      ensures Valid() && table == [[]] && fill == ' ' && separator == ' '
    {
      fill, separator := ' ', ' ';
      widths, column, table := [], 0, [[]];
    }

    method FillWith(c: char)
      modifies this`fill
      ensures fill == c
    {
      fill := c;
    }

    method SeparateColumnsWith(c: char)
      modifies this`separator
      ensures separator == c
    {
      separator := c;
    }

    method Write(cell: string)
      requires Valid()
      modifies this`widths, this`column, this`table
      ensures Valid()
      ensures var n := |old(table)| - 1; table == old(table)[n := old(table)[n] + [cell]]
    {
      WidthsAfterCell(table, cell);
      if column == |widths| {
        widths := widths + [0];
        column := |widths| - 1;
      }
      widths := widths[column := Max(widths[column], |cell|)];
      var n := |table| - 1;
      table := table[n := table[n] + [cell]];
      column := column + 1;
    }

    method NewLine()
      requires Valid()
      modifies this`column, this`table
      ensures Valid() && table == old(table) + [[]]
    {
      WidthsAfterRow(table);
      table := table + [[]];
      column := 0;
    }

    method Flush() returns (out: string)
      requires Valid()
      ensures Fits(table, Widths(table)) && out == Output(table, Widths(table), fill, separator)
    {
      hide Line, Output, Widths, Pad, Longest, Columns;
      RowsFit(table);
      out := "";
      NothingPrinted(widths, fill, separator);
      for r := 0 to |table|
        invariant out == Output(table[..r], widths, fill, separator)
      {
        ghost var before := out;
        if r != 0 {
          out := out + "\n";
        }
        ghost var start := out;
        var row := table[r];
        for k := 0 to |row|
          invariant out == start + Line(row[..k], widths, fill, separator)
        {
          LineGrows(row, k, widths, fill, separator);
          if k != 0 {
            out := out + [separator];
          }
          out := out + Pad(row[k], widths[k], fill);
        }
        assert row[..|row|] == row;
        OutputGrows(table, r, widths, fill, separator);
      }
      assert table[..|table|] == table;
    }
  }

  // Where the cells end up.

  /** The text occurs in the output at this offset. */
  predicate At(out: string, offset: nat, text: string) {
    offset + |text| <= |out| && out[offset..offset + |text|] == text
  }

  lemma AtPrefix(out: string, more: string, offset: nat, text: string)
    requires At(out, offset, text)
    ensures At(out + more, offset, text)
  {
    assert (out + more)[offset..offset + |text|] == out[offset..offset + |text|];
  }

  lemma AtEnd(out: string, between: string, text: string)
    ensures At(out + (between + text), |out| + |between|, text)
  {
  }

  lemma AtInner(out: string, offset: nat, text: string, inner: nat, part: string)
    requires At(out, offset, text) && At(text, inner, part)
    ensures At(out, offset + inner, part)
  {
    forall i | 0 <= i < |part| ensures out[offset + inner + i] == part[i] {
      assert text[inner + i] == out[offset + (inner + i)];
      assert part[i] == text[inner..inner + |part|][i];
    }
  }

  /** Where column `k` starts: every earlier column takes its longest cell and a separator. */
  function Offset(ws: seq<nat>, k: nat): nat
    requires k <= |ws|
  {
    if k == 0 then 0 else Offset(ws, k - 1) + ws[k - 1] + 1
  }

  predicate RowFits(row: Row, ws: seq<nat>) {
    |row| <= |ws| && forall k | 0 <= k < |row| :: |row[k]| <= ws[k]
  }

  lemma PadLength(cell: string, width: nat, fill: char)
    requires |cell| <= width
    ensures |Pad(cell, width, fill)| == width && At(Pad(cell, width, fill), 0, cell)
    ensures At(Pad(cell, width, fill), |cell|, Repeat(fill, width - |cell|))
  {
  }

  lemma {:induction false} LineLength(row: Row, n: nat, ws: seq<nat>, fill: char, separator: char)
    requires RowFits(row, ws) && 0 < n <= |row|
    ensures |Line(row[..n], ws, fill, separator)| + 1 == Offset(ws, n)
    decreases n
  {
    hide Line, Pad;
    LineGrows(row, n - 1, ws, fill, separator);
    PadLength(row[n - 1], ws[n - 1], fill);
    if n == 1 {
      NothingPrinted(ws, fill, separator);
      assert row[..0] == [];
    } else {
      LineLength(row, n - 1, ws, fill, separator);
    }
  }

  lemma {:induction false} PaddedCellAt(row: Row, n: nat, k: nat, ws: seq<nat>, fill: char, separator: char)
    requires RowFits(row, ws) && k < n <= |row|
    ensures At(Line(row[..n], ws, fill, separator), Offset(ws, k), Pad(row[k], ws[k], fill))
    decreases n
  {
    hide Line, Pad;
    LineGrows(row, n - 1, ws, fill, separator);
    var line := Line(row[..n - 1], ws, fill, separator);
    var rest := (if n - 1 != 0 then [separator] else "") + Pad(row[n - 1], ws[n - 1], fill);
    assert Line(row[..n], ws, fill, separator) == line + rest;
    if k < n - 1 {
      PaddedCellAt(row, n - 1, k, ws, fill, separator);
      AtPrefix(line, rest, Offset(ws, k), Pad(row[k], ws[k], fill));
    } else if n == 1 {
      NothingPrinted(ws, fill, separator);
      assert row[..0] == [];
    } else {
      LineLength(row, n - 1, ws, fill, separator);
    }
  }

  /** Every cell but the first comes right after a separator. */
  lemma {:induction false} SeparatorAt(row: Row, n: nat, k: nat, ws: seq<nat>, fill: char, separator: char)
    requires RowFits(row, ws) && 0 < k < n <= |row|
    ensures Offset(ws, k) > 0 && At(Line(row[..n], ws, fill, separator), Offset(ws, k) - 1, [separator])
    decreases n
  {
    hide Line, Pad;
    LineGrows(row, n - 1, ws, fill, separator);
    LineLength(row, n - 1, ws, fill, separator);
    var line := Line(row[..n - 1], ws, fill, separator);
    var rest := [separator] + Pad(row[n - 1], ws[n - 1], fill);
    assert Line(row[..n], ws, fill, separator) == line + rest;
    if k < n - 1 {
      SeparatorAt(row, n - 1, k, ws, fill, separator);
      AtPrefix(line, rest, Offset(ws, k) - 1, [separator]);
    }
  }

  /** Where a row starts: after all earlier lines and their line breaks. */
  function RowStart(table: seq<Row>, r: nat, ws: seq<nat>, fill: char, separator: char): nat
    requires Fits(table, ws) && r <= |table|
  {
    if r == 0 then 0
    else RowStart(table, r - 1, ws, fill, separator) + |Line(table[r - 1], ws, fill, separator)| + 1
  }

  lemma {:induction false} OutputLength(table: seq<Row>, n: nat, ws: seq<nat>, fill: char, separator: char)
    requires Fits(table, ws) && 0 < n <= |table|
    ensures |Output(table[..n], ws, fill, separator)| + 1 == RowStart(table, n, ws, fill, separator)
    decreases n
  {
    hide Line, Output;
    OutputGrows(table, n - 1, ws, fill, separator);
    if n == 1 {
      NothingPrinted(ws, fill, separator);
      assert table[..0] == [];
    } else {
      OutputLength(table, n - 1, ws, fill, separator);
    }
  }

  lemma {:induction false} LineAt(table: seq<Row>, n: nat, r: nat, ws: seq<nat>, fill: char, separator: char)
    requires Fits(table, ws) && r < n <= |table|
    ensures At(Output(table[..n], ws, fill, separator), RowStart(table, r, ws, fill, separator),
               Line(table[r], ws, fill, separator))
    decreases n
  {
    hide Line, Output, At;
    OutputGrows(table, n - 1, ws, fill, separator);
    var out := Output(table[..n - 1], ws, fill, separator);
    var between := if n - 1 != 0 then "\n" else "";
    var line := Line(table[n - 1], ws, fill, separator);
    assert Output(table[..n], ws, fill, separator) == out + (between + line);
    if r < n - 1 {
      LineAt(table, n - 1, r, ws, fill, separator);
      AtPrefix(out, between + line, RowStart(table, r, ws, fill, separator), Line(table[r], ws, fill, separator));
    } else {
      AtEnd(out, between, line);
      if n == 1 {
        NothingPrinted(ws, fill, separator);
        assert table[..0] == [];
      } else {
        OutputLength(table, n - 1, ws, fill, separator);
      }
    }
  }

  /** Every row but the first comes right after a line break. */
  lemma {:induction false} BreakAt(table: seq<Row>, n: nat, r: nat, ws: seq<nat>, fill: char, separator: char)
    requires Fits(table, ws) && 0 < r < n <= |table|
    ensures RowStart(table, r, ws, fill, separator) > 0
    ensures At(Output(table[..n], ws, fill, separator), RowStart(table, r, ws, fill, separator) - 1, "\n")
    decreases n
  {
    hide Line, Output;
    OutputGrows(table, n - 1, ws, fill, separator);
    OutputLength(table, n - 1, ws, fill, separator);
    var out := Output(table[..n - 1], ws, fill, separator);
    var rest := "\n" + Line(table[n - 1], ws, fill, separator);
    assert Output(table[..n], ws, fill, separator) == out + rest;
    if r < n - 1 {
      BreakAt(table, n - 1, r, ws, fill, separator);
      AtPrefix(out, rest, RowStart(table, r, ws, fill, separator) - 1, "\n");
    }
  }

  /** Within its line a cell starts at the offset of its column and is filled up to the width. */
  lemma CellAt(row: Row, k: nat, ws: seq<nat>, fill: char, separator: char)
    requires RowFits(row, ws) && k < |row|
    ensures var line := Line(row, ws, fill, separator);
            && At(line, Offset(ws, k), row[k])
            && At(line, Offset(ws, k) + |row[k]|, Repeat(fill, ws[k] - |row[k]|))
  {
    hide Line, Pad, Repeat, At, Offset;
    assert row[..|row|] == row;
    PaddedCellAt(row, |row|, k, ws, fill, separator);
    PadLength(row[k], ws[k], fill);
    var line := Line(row, ws, fill, separator);
    var padded := Pad(row[k], ws[k], fill);
    AtInner(line, Offset(ws, k), padded, 0, row[k]);
    AtInner(line, Offset(ws, k), padded, |row[k]|, Repeat(fill, ws[k] - |row[k]|));
  }

  lemma RowsFitWidths(table: seq<Row>, r: nat)
    requires r < |table|
    ensures RowFits(table[r], Widths(table))
  {
    hide Longest, Columns;
    RowsFit(table);
    var ws := Widths(table);
    forall k | 0 <= k < |table[r]| ensures k < |ws| && |table[r][k]| <= ws[k] { LongestBounds(table, r, k); }
  }

  /** For every table, ragged or not, cell `k` of every row is printed at the same offset from the
      start of its line, the sum over the earlier columns of the longest cell plus one, and is filled
      up to the width of its column. */
  lemma ColumnsAligned(table: seq<Row>, r: nat, k: nat, fill: char, separator: char)
    requires Fits(table, Widths(table)) && r < |table| && k < |table[r]|
    ensures var ws := Widths(table);
            var out := Output(table, ws, fill, separator);
            var at := RowStart(table, r, ws, fill, separator) + Offset(ws, k);
            var cell := table[r][k];
            && |cell| <= ws[k] == Longest(table, k)
            && At(out, at, cell) && At(out, at + |cell|, Repeat(fill, ws[k] - |cell|))
  {
    hide Line, Output, Longest, Columns, Repeat, At, Offset, RowStart, Fits;
    RowsFitWidths(table, r);
    var ws := Widths(table);
    var line := Line(table[r], ws, fill, separator);
    var out := Output(table, ws, fill, separator);
    var start := RowStart(table, r, ws, fill, separator);
    CellAt(table[r], k, ws, fill, separator);
    assert table[..|table|] == table;
    LineAt(table, |table|, r, ws, fill, separator);
    AtInner(out, start, line, Offset(ws, k), table[r][k]);
    AtInner(out, start, line, Offset(ws, k) + |table[r][k]|, Repeat(fill, ws[k] - |table[r][k]|));
  }

  lemma LineWidth(row: Row, ws: seq<nat>, fill: char, separator: char)
    requires RowFits(row, ws)
    ensures |Line(row, ws, fill, separator)| + 1 == if row == [] then 1 else Offset(ws, |row|)
  {
    hide Line;
    assert row[..|row|] == row;
    if row == [] { NothingPrinted(ws, fill, separator); } else { LineLength(row, |row|, ws, fill, separator); }
  }

  /** Between the cells of a line there is one separator each, between the lines one line break each,
      and nothing comes after the last cell of a line or after the last line. */
  lemma CellsSeparated(table: seq<Row>, r: nat, k: nat, fill: char, separator: char)
    requires Fits(table, Widths(table)) && r < |table| && k < |table[r]|
    ensures var ws := Widths(table);
            var out := Output(table, ws, fill, separator);
            var start := RowStart(table, r, ws, fill, separator);
            && |table[r]| <= |ws|
            && (k > 0 ==> Offset(ws, k) > 0 && At(out, start + (Offset(ws, k) - 1), [separator]))
            && (r > 0 ==> start > 0 && At(out, start - 1, "\n"))
            && RowStart(table, r + 1, ws, fill, separator) == start + Offset(ws, |table[r]|)
            && |out| + 1 == RowStart(table, |table|, ws, fill, separator)
  {
    hide Line, Output, Longest, Columns, At, Fits;
    RowsFitWidths(table, r);
    var ws, row := Widths(table), table[r];
    assert row[..|row|] == row && table[..|table|] == table;
    LineWidth(row, ws, fill, separator);
    LineAt(table, |table|, r, ws, fill, separator);
    if k > 0 {
      SeparatorAt(row, |row|, k, ws, fill, separator);
      AtInner(Output(table, ws, fill, separator), RowStart(table, r, ws, fill, separator),
              Line(row, ws, fill, separator), Offset(ws, k) - 1, [separator]);
    }
    if r > 0 { BreakAt(table, |table|, r, ws, fill, separator); }
    OutputLength(table, |table|, ws, fill, separator);
  }
}
