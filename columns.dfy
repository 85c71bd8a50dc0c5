/**
 * `format_columns(rows, alignments)`: lays rows of cells out as a table.
 * Each column is as wide as its widest rendered cell; every cell is padded
 * with spaces to that width on the side its alignment flag says (`<` pads on
 * the right, `>` on the left); the cells of a row are joined with a gap of
 * two spaces. The result is one line per row.
 */
module Columns {
  import opened Options
  import opened Text

  /** A table cell: a string, or an integer that is rendered with `str()`. */
  datatype Cell = Str(s: string) | Int(n: int)

  /** The alignment flags `<` (Left) and `>` (Right). */
  datatype Align = Left | Right

  /** The two spaces between columns. */
  const GAP := "  "

  function Render(c: Cell): (s: string)
    ensures c.Int? ==> ParseInt(s) == Some(c.n)
  {
    match c
    case Str(s) => s
    case Int(n) => IntRoundTrip(n); IntToString(n)
  }

  function Spaces(n: nat): string {
    seq(n, _ => ' ')
  }

  predicate AllSpaces(s: string) {
    forall i :: 0 <= i < |s| ==> s[i] == ' '
  }

  /** `s` padded with spaces to `width` characters; a longer `s` is left as it is. */
  function Pad(s: string, width: nat, align: Align): (r: string)
    ensures |r| == if |s| < width then width else |s|
  {
    var fill := Spaces(if |s| < width then width - |s| else 0);
    match align
    case Left => s + fill
    case Right => fill + s
  }

  /** Left alignment keeps the text at the start, right alignment at the end; spaces fill the rest. */
  lemma PadLayout(s: string, width: nat, align: Align)
    ensures var r := Pad(s, width, align);
      (align == Left ==> r[..|s|] == s && AllSpaces(r[|s|..]))
      && (align == Right ==> r[|r| - |s|..] == s && AllSpaces(r[..|r| - |s|]))
  {
    var r := Pad(s, width, align);
    var fill := Spaces(if |s| < width then width - |s| else 0);
    if align == Left {
      assert r[|s|..] == fill;
    } else {
      assert r[..|fill|] == fill;
    }
  }

  /** Every row has `n` cells. */
  predicate Rectangular(rows: seq<seq<Cell>>, n: nat) {
    forall i :: 0 <= i < |rows| ==> |rows[i]| == n
  }

  /** The width of column `j`: the longest rendered cell in it. */
  function ColumnWidth(rows: seq<seq<Cell>>, j: nat): nat
    requires forall i :: 0 <= i < |rows| ==> j < |rows[i]|
  {
    if rows == [] then
      0
    else
      var here := |Render(rows[0][j])|;
      var below := ColumnWidth(rows[1..], j);
      if here < below then below else here
  }

  /** No cell of the column is wider than its width, and some cell is exactly that wide. */
  lemma {:induction false} ColumnWidthIsWidest(rows: seq<seq<Cell>>, j: nat)
    requires forall i :: 0 <= i < |rows| ==> j < |rows[i]|
    ensures forall i :: 0 <= i < |rows| ==> |Render(rows[i][j])| <= ColumnWidth(rows, j)
    ensures rows == [] ==> ColumnWidth(rows, j) == 0
    ensures rows != [] ==> exists i :: 0 <= i < |rows| && |Render(rows[i][j])| == ColumnWidth(rows, j)
  {
    if rows != [] {
      ColumnWidthIsWidest(rows[1..], j);
      if |rows| > 1 && |Render(rows[0][j])| < ColumnWidth(rows[1..], j) {
        var k :| 0 <= k < |rows| - 1 && |Render(rows[1..][k][j])| == ColumnWidth(rows[1..], j);
        assert rows[k + 1] == rows[1..][k];
      }
      forall i | 1 <= i < |rows|
        ensures |Render(rows[i][j])| <= ColumnWidth(rows, j)
      {
        assert rows[i] == rows[1..][i - 1];
      }
    }
  }

  function Widths(rows: seq<seq<Cell>>, n: nat): (widths: seq<nat>)
    requires Rectangular(rows, n)
    ensures |widths| == n
    ensures forall j :: 0 <= j < n ==> widths[j] == ColumnWidth(rows, j)
  {
    seq(n, j requires 0 <= j < n => ColumnWidth(rows, j))
  }

  /** The padded cells of one row. */
  function PaddedCells(cells: seq<Cell>, widths: seq<nat>, aligns: seq<Align>): (padded: seq<string>)
    requires |cells| == |widths| == |aligns|
    ensures |padded| == |cells|
    ensures forall k :: 0 <= k < |cells| ==> padded[k] == Pad(Render(cells[k]), widths[k], aligns[k])
  {
    seq(|cells|, k requires 0 <= k < |cells| => Pad(Render(cells[k]), widths[k], aligns[k]))
  }

  function FormatRow(cells: seq<Cell>, widths: seq<nat>, aligns: seq<Align>): string
    requires |cells| == |widths| == |aligns|
  {
    JoinWith(GAP, PaddedCells(cells, widths, aligns))
  }

  /** `format_columns(rows, alignments)`. */
  function FormatColumns(rows: seq<seq<Cell>>, aligns: seq<Align>): (lines: seq<string>)
    requires Rectangular(rows, |aligns|)
    ensures |lines| == |rows|
    ensures forall i :: 0 <= i < |rows| ==> lines[i] == FormatRow(rows[i], Widths(rows, |aligns|), aligns)
  {
    var widths := Widths(rows, |aligns|);
    seq(|rows|, i requires 0 <= i < |rows| => FormatRow(rows[i], widths, aligns))
  }

  // ---------------------------------------------------------------------------
  // The layout: every line has the same length, and column `j` occupies the
  // same span of every line.

  /** Where column `j` starts: after each earlier column and the gap that follows it. */
  function ColumnStart(widths: seq<nat>, j: nat): nat
    requires j <= |widths|
  {
    if j == 0 then 0 else widths[0] + |GAP| + ColumnStart(widths[1..], j - 1)
  }

  /** The length of every line: all the widths and a gap between each two columns. */
  function LineWidth(widths: seq<nat>): nat {
    if widths == [] then 0
    else if |widths| == 1 then widths[0]
    else widths[0] + |GAP| + LineWidth(widths[1..])
  }

  /** Once every cell is as long as its width, the cells start where the columns start. */
  lemma {:induction false} PaddedOffsets(padded: seq<string>, widths: seq<nat>, j: nat)
    requires |padded| == |widths| && j <= |widths|
    requires forall k :: 0 <= k < |padded| ==> |padded[k]| == widths[k]
    ensures PartOffset(GAP, padded, j) == ColumnStart(widths, j)
  {
    if j > 0 {
      PaddedOffsets(padded[1..], widths[1..], j - 1);
    }
  }

  /** ... and the joined row is as long as `LineWidth`. */
  lemma {:induction false} PaddedLength(padded: seq<string>, widths: seq<nat>)
    requires |padded| == |widths|
    requires forall k :: 0 <= k < |padded| ==> |padded[k]| == widths[k]
    ensures |JoinWith(GAP, padded)| == LineWidth(widths)
  {
    if |padded| > 1 {
      PaddedLength(padded[1..], widths[1..]);
    }
  }

  /**
   * `line[start..start + w]` holds `text` on the side `align` gives it and
   * spaces in the rest.
   */
  predicate Placed(line: string, start: nat, w: nat, text: string, align: Align) {
    |text| <= w && start + w <= |line|
    && match align
       case Left => line[start..start + |text|] == text && AllSpaces(line[start + |text|..start + w])
       case Right => line[start + w - |text|..start + w] == text && AllSpaces(line[start..start + w - |text|])
  }

  /** The two-space gap follows position `end` of the line. */
  predicate GapAt(line: string, end: nat) {
    end + |GAP| <= |line| && line[end..end + |GAP|] == GAP
  }

  /** A span that holds a padded text holds it as `Placed` says. */
  lemma CellSpan(line: string, start: nat, w: nat, text: string, align: Align)
    requires |text| <= w && start + w <= |line|
    requires line[start..start + w] == Pad(text, w, align)
    ensures Placed(line, start, w, text, align)
  {
    PadLayout(text, w, align);
    if align == Left {
      SliceOfSlice(line, start, start + w, 0, |text|);
      SliceOfSlice(line, start, start + w, |text|, w);
    } else {
      SliceOfSlice(line, start, start + w, w - |text|, w);
      SliceOfSlice(line, start, start + w, 0, w - |text|);
    }
  }

  lemma SliceOfSlice(s: string, a: nat, b: nat, x: nat, y: nat)
    requires a <= b <= |s| && x <= y <= b - a
    ensures s[a..b][x..y] == s[a + x..a + y]
  {
    assert forall k :: 0 <= k < y - x ==> s[a..b][x..y][k] == s[a + x + k];
  }

  /** In a join of parts as long as their widths, part `j` and the gap after it sit where column `j` starts. */
  lemma {:induction false} JoinedSpans(padded: seq<string>, widths: seq<nat>, j: nat)
    requires |padded| == |widths| && j < |widths|
    requires forall k :: 0 <= k < |padded| ==> |padded[k]| == widths[k]
    ensures var row := JoinWith(GAP, padded); var start := ColumnStart(widths, j);
      |row| == LineWidth(widths)
      && start + widths[j] <= |row| && row[start..start + widths[j]] == padded[j]
      && (j + 1 < |padded| ==> GapAt(row, start + widths[j]))
  {
    PaddedLength(padded, widths);
    PaddedOffsets(padded, widths, j);
    JoinSlice(GAP, padded, j);
  }

  /**
   * A row whose cells all fit their widths is `LineWidth(widths)` long, its
   * cell `j` is placed at `ColumnStart(widths, j)`, and the gap follows it
   * unless it is the last.
   */
  lemma RowLayout(cells: seq<Cell>, widths: seq<nat>, aligns: seq<Align>, j: nat)
    requires |cells| == |widths| == |aligns| && j < |cells|
    requires forall k :: 0 <= k < |cells| ==> |Render(cells[k])| <= widths[k]
    ensures var row := FormatRow(cells, widths, aligns);
      |row| == LineWidth(widths)
      && Placed(row, ColumnStart(widths, j), widths[j], Render(cells[j]), aligns[j])
      && (j + 1 < |cells| ==> GapAt(row, ColumnStart(widths, j) + widths[j]))
  {
    var padded := PaddedCells(cells, widths, aligns);
    PaddedWidths(cells, widths, aligns);
    JoinedSpans(padded, widths, j);
    var start := ColumnStart(widths, j);
    assert padded[j] == Pad(Render(cells[j]), widths[j], aligns[j]);
    CellSpan(JoinWith(GAP, padded), start, widths[j], Render(cells[j]), aligns[j]);
    assert FormatRow(cells, widths, aligns) == JoinWith(GAP, padded);
  }

  /** Cells that fit their widths are padded to exactly those widths. */
  lemma PaddedWidths(cells: seq<Cell>, widths: seq<nat>, aligns: seq<Align>)
    requires |cells| == |widths| == |aligns|
    requires forall k :: 0 <= k < |cells| ==> |Render(cells[k])| <= widths[k]
    ensures forall k :: 0 <= k < |cells| ==> |PaddedCells(cells, widths, aligns)[k]| == widths[k]
  {
  }

  /** Every cell fits the width of its column. */
  lemma CellsFit(rows: seq<seq<Cell>>, n: nat, i: nat)
    requires Rectangular(rows, n) && i < |rows|
    ensures forall k :: 0 <= k < n ==> |Render(rows[i][k])| <= Widths(rows, n)[k]
  {
    var widths := Widths(rows, n);
    forall k | 0 <= k < n
      ensures |Render(rows[i][k])| <= widths[k]
    {
      assert widths[k] == ColumnWidth(rows, k);
      ColumnWidthIsWidest(rows, k);
    }
  }

  /**
   * Every line of the table is `LineWidth` long, and the cell in column `j`
   * is placed in the span that starts at `ColumnStart(widths, j)` and is as
   * wide as the widest cell of the column: left-aligned text at its start,
   * right-aligned text at its end, spaces in the rest. Two spaces follow
   * each column but the last.
   */
  lemma ColumnLayout(rows: seq<seq<Cell>>, aligns: seq<Align>, i: nat, j: nat)
    requires Rectangular(rows, |aligns|)
    requires i < |rows| && j < |aligns|
    ensures var line := FormatColumns(rows, aligns)[i]; var widths := Widths(rows, |aligns|);
      |line| == LineWidth(widths)
      && Placed(line, ColumnStart(widths, j), widths[j], Render(rows[i][j]), aligns[j])
      && (j + 1 < |aligns| ==> GapAt(line, ColumnStart(widths, j) + widths[j]))
  {
    var widths := Widths(rows, |aligns|);
    assert FormatColumns(rows, aligns)[i] == FormatRow(rows[i], widths, aligns);
    CellsFit(rows, |aligns|, i);
    RowLayout(rows[i], widths, aligns, j);
  }
}
