/** The table of the column-formatting test, proved to lay out as the documented text. */
module ColumnsCases {
  import opened Text
  import opened Columns

  /** The rows of the test: a header, a rule, and three rows whose middle cells are integers. */
  function DocRows(): (rows: seq<seq<Cell>>)
    ensures Rectangular(rows, 3)
  {
    [ [Str("Alfa"), Str("Bravo"), Str("Charlie")],
      [Str("----"), Str("-----"), Str("-------")],
      [Str("apple"), Int(1), Str("x")],
      [Str("banana"), Int(22), Str("xxxxxxxxx")],
      [Str("Clementine"), Int(333), Str("xx")] ]
  }

  /** The alignment flags `["<", ">", ">"]`. */
  const ALIGNS := [Left, Right, Right]

  /** The documented table, its lines joined with newlines and no newline at the end. */
  const DOC := "Alfa        Bravo    Charlie" + "\n"
    + "----        -----    -------" + "\n"
    + "apple           1          x" + "\n"
    + "banana         22  xxxxxxxxx" + "\n"
    + "Clementine    333         xx"

  /** The widest cells are `Clementine`, `Bravo`/`-----`/`333` and `xxxxxxxxx`. */
  lemma DocWidths(rows: seq<seq<Cell>>)
    requires rows == DocRows()
    ensures Widths(rows, 3) == [10, 5, 9]
  {
    DocWidth0(rows);
    DocWidth1(rows);
    DocWidth2(rows);
  }

  lemma DocWidth0(rows: seq<seq<Cell>>)
    requires rows == DocRows()
    ensures ColumnWidth(rows, 0) == 10
  {
    assert ColumnWidth(rows[4..], 0) == 10;
    assert ColumnWidth(rows[3..], 0) == 10;
    assert ColumnWidth(rows[2..], 0) == 10;
    assert ColumnWidth(rows[1..], 0) == 10;
  }

  /** The integer cells of the table rendered as text. */
  lemma IntCellTexts()
    ensures |Render(Int(1))| == 1 && |Render(Int(22))| == 2 && |Render(Int(333))| == 3
  {
    assert NatToString(2) == "2" && NatToString(3) == "3" && NatToString(33) == "33";
  }

  lemma DocWidth1(rows: seq<seq<Cell>>)
    requires rows == DocRows()
    ensures ColumnWidth(rows, 1) == 5
  {
    IntCellTexts();
    assert ColumnWidth(rows[4..], 1) == 3;
    assert ColumnWidth(rows[3..], 1) == 3;
    assert ColumnWidth(rows[2..], 1) == 3;
    assert ColumnWidth(rows[1..], 1) == 5;
  }

  lemma DocWidth2(rows: seq<seq<Cell>>)
    requires rows == DocRows()
    ensures ColumnWidth(rows, 2) == 9
  {
    assert ColumnWidth(rows[4..], 2) == 2;
    assert ColumnWidth(rows[3..], 2) == 9;
    assert ColumnWidth(rows[2..], 2) == 9;
    assert ColumnWidth(rows[1..], 2) == 9;
  }

  /** A row of three cells is the three padded cells with a gap between each two. */
  lemma RowOfThree(cells: seq<Cell>, widths: seq<nat>, aligns: seq<Align>)
    requires |cells| == |widths| == |aligns| == 3
    ensures FormatRow(cells, widths, aligns)
      == Pad(Render(cells[0]), widths[0], aligns[0]) + GAP
      + Pad(Render(cells[1]), widths[1], aligns[1]) + GAP
      + Pad(Render(cells[2]), widths[2], aligns[2])
  {
    var padded := PaddedCells(cells, widths, aligns);
    assert padded[1..] == [padded[1], padded[2]];
    assert padded[1..][1..] == [padded[2]];
    assert JoinWith(GAP, padded[1..]) == padded[1] + GAP + padded[2];
    assert JoinWith(GAP, padded) == padded[0] + GAP + (padded[1] + GAP + padded[2]);
  }

  /** Proof helper: the padded texts of line 0 with a gap between each two. */
  lemma DocGlue0()
    ensures "Alfa      " + GAP + "Bravo" + GAP + "  Charlie" == "Alfa        Bravo    Charlie"
  {
  }

  /** The three padded cells of line 0. */
  lemma DocCells0()
    ensures Pad(Render(Str("Alfa")), 10, Left) == "Alfa      "
    ensures Pad(Render(Str("Bravo")), 5, Right) == "Bravo"
    ensures Pad(Render(Str("Charlie")), 9, Right) == "  Charlie"
  {
    assert Pad(Render(Str("Alfa")), 10, Left) == "Alfa      " by {
      assert Spaces(6) == "      ";
    }
    assert Pad(Render(Str("Bravo")), 5, Right) == "Bravo" by {
      assert Spaces(0) == "";
    }
    assert Pad(Render(Str("Charlie")), 9, Right) == "  Charlie" by {
      assert Spaces(2) == "  ";
    }
  }

  /** The padded cells of line 0, joined with the gap. */
  lemma DocPads0()
    ensures Pad(Render(Str("Alfa")), 10, Left) + GAP
      + Pad(Render(Str("Bravo")), 5, Right) + GAP
      + Pad(Render(Str("Charlie")), 9, Right)
      == "Alfa        Bravo    Charlie"
  {
    DocCells0();
    DocGlue0();
  }

  /** Line 0 of the table. */
  lemma DocRow0(cells: seq<Cell>)
    requires cells == [Str("Alfa"), Str("Bravo"), Str("Charlie")]
    ensures FormatRow(cells, [10, 5, 9], ALIGNS) == "Alfa        Bravo    Charlie"
  {
    var widths := [10, 5, 9];
    RowOfThree(cells, widths, ALIGNS);
    assert cells[0] == Str("Alfa") && cells[1] == Str("Bravo") && cells[2] == Str("Charlie");
    assert widths[0] == 10 && widths[1] == 5 && widths[2] == 9;
    assert ALIGNS[0] == Left && ALIGNS[1] == Right && ALIGNS[2] == Right;
    DocPads0();
  }

  /** Proof helper: the padded texts of line 1 with a gap between each two. */
  lemma DocGlue1()
    ensures "----      " + GAP + "-----" + GAP + "  -------" == "----        -----    -------"
  {
  }

  /** The three padded cells of line 1. */
  lemma DocCells1()
    ensures Pad(Render(Str("----")), 10, Left) == "----      "
    ensures Pad(Render(Str("-----")), 5, Right) == "-----"
    ensures Pad(Render(Str("-------")), 9, Right) == "  -------"
  {
    assert Pad(Render(Str("----")), 10, Left) == "----      " by {
      assert Spaces(6) == "      ";
    }
    assert Pad(Render(Str("-----")), 5, Right) == "-----" by {
      assert Spaces(0) == "";
    }
    assert Pad(Render(Str("-------")), 9, Right) == "  -------" by {
      assert Spaces(2) == "  ";
    }
  }

  /** The padded cells of line 1, joined with the gap. */
  lemma DocPads1()
    ensures Pad(Render(Str("----")), 10, Left) + GAP
      + Pad(Render(Str("-----")), 5, Right) + GAP
      + Pad(Render(Str("-------")), 9, Right)
      == "----        -----    -------"
  {
    DocCells1();
    DocGlue1();
  }

  /** Line 1 of the table. */
  lemma DocRow1(cells: seq<Cell>)
    requires cells == [Str("----"), Str("-----"), Str("-------")]
    ensures FormatRow(cells, [10, 5, 9], ALIGNS) == "----        -----    -------"
  {
    var widths := [10, 5, 9];
    RowOfThree(cells, widths, ALIGNS);
    assert cells[0] == Str("----") && cells[1] == Str("-----") && cells[2] == Str("-------");
    assert widths[0] == 10 && widths[1] == 5 && widths[2] == 9;
    assert ALIGNS[0] == Left && ALIGNS[1] == Right && ALIGNS[2] == Right;
    DocPads1();
  }

  /** Proof helper: the padded texts of line 2 with a gap between each two. */
  lemma DocGlue2()
    ensures "apple     " + GAP + "    1" + GAP + "        x" == "apple           1          x"
  {
  }

  /** The three padded cells of line 2. */
  lemma DocCells2()
    ensures Pad(Render(Str("apple")), 10, Left) == "apple     "
    ensures Pad(Render(Int(1)), 5, Right) == "    1"
    ensures Pad(Render(Str("x")), 9, Right) == "        x"
  {
    assert Pad(Render(Str("apple")), 10, Left) == "apple     " by {
      assert Spaces(5) == "     ";
    }
    assert Pad(Render(Int(1)), 5, Right) == "    1" by {
      assert Spaces(4) == "    ";
    }
    assert Pad(Render(Str("x")), 9, Right) == "        x" by {
      assert Spaces(8) == "        ";
    }
  }

  /** The padded cells of line 2, joined with the gap. */
  lemma DocPads2()
    ensures Pad(Render(Str("apple")), 10, Left) + GAP
      + Pad(Render(Int(1)), 5, Right) + GAP
      + Pad(Render(Str("x")), 9, Right)
      == "apple           1          x"
  {
    DocCells2();
    DocGlue2();
  }

  /** Line 2 of the table. */
  lemma DocRow2(cells: seq<Cell>)
    requires cells == [Str("apple"), Int(1), Str("x")]
    ensures FormatRow(cells, [10, 5, 9], ALIGNS) == "apple           1          x"
  {
    var widths := [10, 5, 9];
    RowOfThree(cells, widths, ALIGNS);
    assert cells[0] == Str("apple") && cells[1] == Int(1) && cells[2] == Str("x");
    assert widths[0] == 10 && widths[1] == 5 && widths[2] == 9;
    assert ALIGNS[0] == Left && ALIGNS[1] == Right && ALIGNS[2] == Right;
    DocPads2();
  }

  /** Proof helper: the padded texts of line 3 with a gap between each two. */
  lemma DocGlue3()
    ensures "banana    " + GAP + "   22" + GAP + "xxxxxxxxx" == "banana         22  xxxxxxxxx"
  {
  }

  /** The three padded cells of line 3. */
  lemma DocCells3()
    ensures Pad(Render(Str("banana")), 10, Left) == "banana    "
    ensures Pad(Render(Int(22)), 5, Right) == "   22"
    ensures Pad(Render(Str("xxxxxxxxx")), 9, Right) == "xxxxxxxxx"
  {
    assert Pad(Render(Str("banana")), 10, Left) == "banana    " by {
      assert Spaces(4) == "    ";
    }
    assert Pad(Render(Int(22)), 5, Right) == "   22" by {
      assert Spaces(3) == "   ";
    }
    assert Pad(Render(Str("xxxxxxxxx")), 9, Right) == "xxxxxxxxx" by {
      assert Spaces(0) == "";
    }
  }

  /** The padded cells of line 3, joined with the gap. */
  lemma DocPads3()
    ensures Pad(Render(Str("banana")), 10, Left) + GAP
      + Pad(Render(Int(22)), 5, Right) + GAP
      + Pad(Render(Str("xxxxxxxxx")), 9, Right)
      == "banana         22  xxxxxxxxx"
  {
    DocCells3();
    DocGlue3();
  }

  /** Line 3 of the table. */
  lemma DocRow3(cells: seq<Cell>)
    requires cells == [Str("banana"), Int(22), Str("xxxxxxxxx")]
    ensures FormatRow(cells, [10, 5, 9], ALIGNS) == "banana         22  xxxxxxxxx"
  {
    var widths := [10, 5, 9];
    RowOfThree(cells, widths, ALIGNS);
    assert cells[0] == Str("banana") && cells[1] == Int(22) && cells[2] == Str("xxxxxxxxx");
    assert widths[0] == 10 && widths[1] == 5 && widths[2] == 9;
    assert ALIGNS[0] == Left && ALIGNS[1] == Right && ALIGNS[2] == Right;
    DocPads3();
  }

  /** Proof helper: the padded texts of line 4 with a gap between each two. */
  lemma DocGlue4()
    ensures "Clementine" + GAP + "  333" + GAP + "       xx" == "Clementine    333         xx"
  {
  }

  /** The three padded cells of line 4. */
  lemma DocCells4()
    ensures Pad(Render(Str("Clementine")), 10, Left) == "Clementine"
    ensures Pad(Render(Int(333)), 5, Right) == "  333"
    ensures Pad(Render(Str("xx")), 9, Right) == "       xx"
  {
    assert Pad(Render(Str("Clementine")), 10, Left) == "Clementine" by {
      assert Spaces(0) == "";
    }
    assert Pad(Render(Int(333)), 5, Right) == "  333" by {
      assert Spaces(2) == "  ";
    }
    assert Pad(Render(Str("xx")), 9, Right) == "       xx" by {
      assert Spaces(7) == "       ";
    }
  }

  /** The padded cells of line 4, joined with the gap. */
  lemma DocPads4()
    ensures Pad(Render(Str("Clementine")), 10, Left) + GAP
      + Pad(Render(Int(333)), 5, Right) + GAP
      + Pad(Render(Str("xx")), 9, Right)
      == "Clementine    333         xx"
  {
    DocCells4();
    DocGlue4();
  }

  /** Line 4 of the table. */
  lemma DocRow4(cells: seq<Cell>)
    requires cells == [Str("Clementine"), Int(333), Str("xx")]
    ensures FormatRow(cells, [10, 5, 9], ALIGNS) == "Clementine    333         xx"
  {
    var widths := [10, 5, 9];
    RowOfThree(cells, widths, ALIGNS);
    assert cells[0] == Str("Clementine") && cells[1] == Int(333) && cells[2] == Str("xx");
    assert widths[0] == 10 && widths[1] == 5 && widths[2] == 9;
    assert ALIGNS[0] == Left && ALIGNS[1] == Right && ALIGNS[2] == Right;
    DocPads4();
  }

  /** Five parts joined with a separator, written out. */
  lemma JoinFive(sep: string, parts: seq<string>)
    requires |parts| == 5
    ensures JoinWith(sep, parts)
      == parts[0] + sep + parts[1] + sep + parts[2] + sep + parts[3] + sep + parts[4]
  {
    assert parts[1..][1..][1..][1..] == [parts[4]];
    assert JoinWith(sep, parts[1..][1..][1..]) == parts[3] + sep + parts[4];
    assert JoinWith(sep, parts[1..][1..]) == parts[2] + sep + (parts[3] + sep + parts[4]);
    assert JoinWith(sep, parts[1..]) == parts[1] + sep + (parts[2] + sep + (parts[3] + sep + parts[4]));
  }

  /** The five lines joined with newlines are the documented text. */
  lemma DocJoin(lines: seq<string>)
    requires |lines| == 5
    requires lines[0] == "Alfa        Bravo    Charlie" && lines[1] == "----        -----    -------"
    requires lines[2] == "apple           1          x" && lines[3] == "banana         22  xxxxxxxxx"
    requires lines[4] == "Clementine    333         xx"
    ensures JoinWith("\n", lines) == DOC
  {
    JoinFive("\n", lines);
  }

  /** The formatted rows are the five lines of the documented table. */
  lemma DocLines(rows: seq<seq<Cell>>, lines: seq<string>)
    requires rows == DocRows() && lines == FormatColumns(rows, ALIGNS)
    ensures |lines| == 5
    ensures lines[0] == "Alfa        Bravo    Charlie" && lines[1] == "----        -----    -------"
    ensures lines[2] == "apple           1          x" && lines[3] == "banana         22  xxxxxxxxx"
    ensures lines[4] == "Clementine    333         xx"
  {
    DocWidths(rows);
    assert forall k :: 0 <= k < 5 ==> lines[k] == FormatRow(rows[k], [10, 5, 9], ALIGNS);
    DocRow0(rows[0]);
    DocRow1(rows[1]);
    DocRow2(rows[2]);
    DocRow3(rows[3]);
    DocRow4(rows[4]);
  }

  /** `"\n".join(format_columns(rows, ["<", ">", ">"])) == DOC`. */
  lemma DocExample()
    ensures JoinWith("\n", FormatColumns(DocRows(), ALIGNS)) == DOC
  {
    var lines := FormatColumns(DocRows(), ALIGNS);
    DocLines(DocRows(), lines);
    DocJoin(lines);
  }
}
