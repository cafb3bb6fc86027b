/**
 * The table documents (time map, events and the like): a `# title` heading and
 * a Markdown table whose first two table lines are the header and separator.
 */
module TableSection {
  import opened Text
  import opened MarkdownTags

  // ---------------------------------------------------------------------
  // reading

  /** A line whose first visible character is `|`. */
  predicate IsTableLine(line: String)
  {
    FirstVisible(line) == Some('|')
  }

  /** The same as: the trimmed line starts with `|`. */
  lemma IsTableLineTrim(line: String)
    ensures IsTableLine(line) <==> Trim(line) != [] && Trim(line)[0] == '|'
  {
    FirstVisibleTrim(line);
  }

  lemma TableLinesOne(x: String)
    ensures TableLines([x]) == if IsTableLine(x) then [x] else []
  {
    assert [x][1..] == [];
  }

  function TableLines(lines: seq<String>): seq<String>
  {
    if lines == [] then []
    else (if IsTableLine(lines[0]) then [lines[0]] else []) + TableLines(lines[1..])
  }

  lemma {:induction false} TableLinesAppend(a: seq<String>, b: seq<String>)
    ensures TableLines(a + b) == TableLines(a) + TableLines(b)
  {
    if a != [] {
      assert (a + b)[0] == a[0];
      assert (a + b)[1..] == a[1..] + b;
      TableLinesAppend(a[1..], b);
    } else {
      assert a + b == b;
    }
  }

  /** The cells of one table line: split on `|`, trimmed, without the first and last piece. */
  function RowCells(line: String): seq<String>
  {
    var parts := Split(line, '|');
    var t := seq(|parts|, i requires 0 <= i < |parts| => Trim(parts[i]));
    if |t| < 2 then [] else t[1..|t| - 1]
  }

  lemma RowCellsShape(line: String)
    ensures forall i :: 0 <= i < |RowCells(line)| ==> Trimmed(RowCells(line)[i]) && '|' !in RowCells(line)[i]
  {
    var parts := Split(line, '|');
    forall i | 1 <= i < |parts| - 1 ensures '|' !in Trim(parts[i]) {
      TrimChars(parts[i]);
    }
  }

  /** The cells of every data line, in order. */
  function CellLists(dataLines: seq<String>): (r: seq<seq<String>>)
    ensures |r| == |dataLines| && forall k :: 0 <= k < |r| ==> r[k] == RowCells(dataLines[k])
  {
    seq(|dataLines|, k requires 0 <= k < |dataLines| => RowCells(dataLines[k]))
  }

  /** The cell lists that are not empty, in order. */
  function NonEmpty(lists: seq<seq<String>>): seq<seq<String>>
  {
    if lists == [] then []
    else NonEmpty(lists[..|lists| - 1]) + (if lists[|lists| - 1] == [] then [] else [lists[|lists| - 1]])
  }

  /** The rows of the data lines: each line's cells, lines without cells skipped. */
  function RowsOf(dataLines: seq<String>): seq<seq<String>>
  {
    NonEmpty(CellLists(dataLines))
  }

  /** parseTable: fewer than two table lines is no table; the header and separator are skipped. */
  function ParseTable(content: String): (rows: seq<seq<String>>)
  {
    var tableLines := TableLines(Split(content, '\n'));
    if |tableLines| < 2 then [] else RowsOf(tableLines[2..])
  }

  lemma {:induction false} NonEmptyShape(lists: seq<seq<String>>)
    ensures forall r :: r in NonEmpty(lists) ==> r != [] && r in lists
  {
    if lists != [] {
      NonEmptyShape(lists[..|lists| - 1]);
    }
  }

  lemma {:induction false} NonEmptyAll(lists: seq<seq<String>>)
    requires forall k :: 0 <= k < |lists| ==> lists[k] != []
    ensures NonEmpty(lists) == lists
  {
    if lists != [] {
      NonEmptyAll(lists[..|lists| - 1]);
    }
  }

  /** Every row read has at least one cell, each trimmed and free of `|`. */
  lemma RowsOfShape(dataLines: seq<String>)
    ensures forall r :: r in RowsOf(dataLines) ==>
      r != [] && forall i :: 0 <= i < |r| ==> Trimmed(r[i]) && '|' !in r[i]
  {
    var all := CellLists(dataLines);
    NonEmptyShape(all);
    forall r | r in RowsOf(dataLines)
      ensures r != [] && forall i :: 0 <= i < |r| ==> Trimmed(r[i]) && '|' !in r[i]
    {
      var k :| 0 <= k < |all| && all[k] == r;
      RowCellsShape(dataLines[k]);
    }
  }

  /** The loop over the data lines of parseTable. */
  method ReadTable(content: String) returns (rows: seq<seq<String>>)
    ensures rows == ParseTable(content)
    ensures forall r :: r in rows ==> r != [] && forall i :: 0 <= i < |r| ==> Trimmed(r[i]) && '|' !in r[i]
  {
    var tableLines := TableLines(Split(content, '\n'));
    rows := [];
    if |tableLines| < 2 {
      return;
    }
    var dataLines := tableLines[2..];
    ghost var all := CellLists(dataLines);
    var i := 0;
    while i < |dataLines|
      invariant 0 <= i <= |dataLines|
      invariant rows == NonEmpty(all[..i])
    {
      assert all[..i + 1][..i] == all[..i];
      var cells := RowCells(dataLines[i]);
      if cells != [] {
        rows := rows + [cells];
      }
      i := i + 1;
    }
    assert all[..i] == all;
    RowsOfShape(dataLines);
  }

  // ---------------------------------------------------------------------
  // writing

  /** The cells written for a row: one per column, a missing cell written empty. */
  function Cells(row: seq<String>, columns: nat): (cells: seq<String>)
    ensures |cells| == columns
    ensures forall i :: 0 <= i < columns ==> cells[i] == if i < |row| then row[i] else []
  {
    seq(columns, i requires 0 <= i < columns => if i < |row| then row[i] else [])
  }

  function RowLine(cells: seq<String>): String
  {
    "| " + Join(cells, " | ") + " |"
  }

  function Blanks(n: nat): seq<String>
  {
    seq(n, _ => [])
  }

  function Dashes(n: nat): seq<String>
  {
    seq(n, _ => "---")
  }

  function DataLines(labels: seq<String>, rows: seq<seq<String>>): seq<String>
  {
    if rows == [] then [RowLine(Blanks(|labels|))]
    else seq(|rows|, i requires 0 <= i < |rows| => RowLine(Cells(rows[i], |labels|)))
  }

  function SerializeLines(title: String, labels: seq<String>, rows: seq<seq<String>>): seq<String>
  {
    ["# " + title, "", RowLine(labels), RowLine(Dashes(|labels|))] + DataLines(labels, rows) + [""]
  }

  /** serializeRows */
  function Serialize(title: String, labels: seq<String>, rows: seq<seq<String>>, tags: seq<String>): String
  {
    Join(PrependTagFrontmatter(SerializeLines(title, labels, rows), tags), "\n")
  }

  /**
   * loadRows: an empty (or missing) document is replaced by the written empty
   * table and reads as no rows; otherwise the table is read.
   */
  function LoadRows(content: String, title: String, labels: seq<String>, tags: seq<String>): (r: (seq<seq<String>>, Option<String>))
    ensures content == [] ==> r == ([], Some(Serialize(title, labels, [], tags)))
    ensures content != [] ==> r.1 == None && r.0 == ParseTable(content)
  {
    if content == [] then ([], Some(Serialize(title, labels, [], tags))) else (ParseTable(content), None)
  }

  // ---------------------------------------------------------------------
  // round trip

  /** A cell that reads back as itself. */
  predicate PlainCell(c: String)
  {
    Trimmed(c) && '|' !in c && '\n' !in c
  }

  function Padded(cells: seq<String>): seq<String>
  {
    seq(|cells|, i requires 0 <= i < |cells| => " " + cells[i] + " ")
  }

  /** Padding every cell and closing with an empty piece joins like the cells joined by ` | `, framed by spaces. */
  lemma {:induction false} PaddedJoin(cells: seq<String>)
    requires |cells| >= 1
    ensures Join(Padded(cells) + [[]], "|") == " " + Join(cells, " | ") + " |"
  {
    var c0 := " " + cells[0] + " ";
    var ps := Padded(cells) + [[]];
    if |cells| == 1 {
      assert ps == [c0, []];
      assert ps[1..] == [[]];
      assert Join(ps, "|") == c0 + "|" + [];
    } else {
      var rest := Padded(cells[1..]) + [[]];
      assert ps[1..] == rest by {
        assert Padded(cells)[1..] == Padded(cells[1..]);
      }
      PaddedJoin(cells[1..]);
      var j := Join(cells[1..], " | ");
      assert Join(ps, "|") == c0 + "|" + (" " + j + " |");
      assert Join(cells, " | ") == cells[0] + " | " + j;
    }
  }

  lemma RowLineAsPieces(cells: seq<String>)
    requires |cells| >= 1
    ensures RowLine(cells) == Join([[]] + Padded(cells) + [[]], "|")
  {
    var ps := Padded(cells) + [[]];
    ConcatAssoc([[]], Padded(cells), [[]]);
    assert ([[]] + ps)[1..] == ps;
    PaddedJoin(cells);
    assert Join([[]] + ps, "|") == [] + "|" + (" " + Join(cells, " | ") + " |");
  }

  lemma CellTrims(c: String)
    requires Trimmed(c)
    ensures Trim(" " + c + " ") == c
  {
    TrimPadded(" ", c, " ");
  }

  /** A written row line reads back as its cells. */
  lemma RowCellsOfRowLine(cells: seq<String>)
    requires |cells| >= 1 && forall i :: 0 <= i < |cells| ==> PlainCell(cells[i])
    ensures RowCells(RowLine(cells)) == cells
  {
    RowLineAsPieces(cells);
    var pieces := [[]] + Padded(cells) + [[]];
    assert forall k :: 0 <= k < |pieces| ==> '|' !in pieces[k] by {
      forall k | 0 <= k < |pieces| ensures '|' !in pieces[k] {
        if 0 < k < |pieces| - 1 {
          assert pieces[k] == " " + cells[k - 1] + " ";
        }
      }
    }
    SplitJoin(pieces, '|');
    var t := seq(|pieces|, i requires 0 <= i < |pieces| => Trim(pieces[i]));
    forall i | 0 <= i < |cells| ensures t[i + 1] == cells[i] {
      assert pieces[i + 1] == " " + cells[i] + " ";
      CellTrims(cells[i]);
    }
  }

  lemma TableLinesOfFrontmatter(tags: seq<String>)
    ensures TableLines(Frontmatter(tags)) == []
  {
    var f := Frontmatter(tags);
    FrontmatterShape(tags);
    forall k | 0 <= k < |f| ensures !IsTableLine(f[k]) {
      if StartsWith(f[k], "  - ") {
        assert f[k] == "  " + f[k][2..];
        FirstVisibleSkips("  ", f[k][2..]);
      }
    }
    NoTableLines(f);
  }

  lemma {:induction false} NoTableLines(lines: seq<String>)
    requires forall k :: 0 <= k < |lines| ==> !IsTableLine(lines[k])
    ensures TableLines(lines) == []
  {
    if lines != [] {
      NoTableLines(lines[1..]);
    }
  }

  lemma {:induction false} AllTableLines(lines: seq<String>)
    requires forall k :: 0 <= k < |lines| ==> IsTableLine(lines[k])
    ensures TableLines(lines) == lines
  {
    if lines != [] {
      AllTableLines(lines[1..]);
    }
  }

  lemma RowLineIsTableLine(cells: seq<String>)
    ensures IsTableLine(RowLine(cells))
  {
    assert RowLine(cells)[0] == '|';
  }

  lemma TitleIsNotTableLine(title: String)
    ensures !IsTableLine("# " + title)
  {
    assert ("# " + title)[0] == '#';
  }

  lemma TableLinesOfData(labels: seq<String>, rows: seq<seq<String>>)
    ensures TableLines(DataLines(labels, rows)) == DataLines(labels, rows)
  {
    var data := DataLines(labels, rows);
    forall k | 0 <= k < |data| ensures IsTableLine(data[k]) {
      if rows == [] {
        RowLineIsTableLine(Blanks(|labels|));
      } else {
        RowLineIsTableLine(Cells(rows[k], |labels|));
      }
    }
    AllTableLines(data);
  }

  lemma TableLinesOfHead(title: String, labels: seq<String>)
    ensures TableLines(["# " + title, "", RowLine(labels), RowLine(Dashes(|labels|))])
      == [RowLine(labels), RowLine(Dashes(|labels|))]
  {
    var a, b, c, d := "# " + title, "", RowLine(labels), RowLine(Dashes(|labels|));
    TitleIsNotTableLine(title);
    RowLineIsTableLine(labels);
    RowLineIsTableLine(Dashes(|labels|));
    TableLinesOne(d);
    assert [c, d][1..] == [d];
    assert TableLines([c, d]) == [c, d];
    assert [b, c, d][1..] == [c, d];
    assert TableLines([b, c, d]) == [c, d];
    assert [a, b, c, d][1..] == [b, c, d];
  }

  lemma TableLinesOfBody(title: String, labels: seq<String>, rows: seq<seq<String>>)
    ensures TableLines(SerializeLines(title, labels, rows))
      == [RowLine(labels), RowLine(Dashes(|labels|))] + DataLines(labels, rows)
  {
    var data := DataLines(labels, rows);
    var head := ["# " + title, "", RowLine(labels), RowLine(Dashes(|labels|))];
    TableLinesOfData(labels, rows);
    TableLinesOfHead(title, labels);
    TableLinesOne([]);
    TableLinesAppend(head + data, [""]);
    TableLinesAppend(head, data);
  }

  /** Which lines of a written document are table lines: the header, separator and data lines. */
  lemma TableLinesOfDocument(title: String, labels: seq<String>, rows: seq<seq<String>>, tags: seq<String>)
    ensures TableLines(PrependTagFrontmatter(SerializeLines(title, labels, rows), tags))
      == [RowLine(labels), RowLine(Dashes(|labels|))] + DataLines(labels, rows)
  {
    TableLinesOfFrontmatter(NormalizedTags(tags));
    TableLinesOfBody(title, labels, rows);
    TableLinesAppend(Frontmatter(NormalizedTags(tags)), SerializeLines(title, labels, rows));
  }

  predicate PlainRows(rows: seq<seq<String>>, columns: nat)
  {
    forall r, i :: r in rows && 0 <= i < |r| && i < columns ==> PlainCell(r[i])
  }

  lemma DocumentLines(title: String, labels: seq<String>, rows: seq<seq<String>>, tags: seq<String>)
    requires '\n' !in title && forall i :: 0 <= i < |labels| ==> '\n' !in labels[i]
    requires NoBreaks(tags) && PlainRows(rows, |labels|)
    ensures Split(Serialize(title, labels, rows, tags), '\n') == PrependTagFrontmatter(SerializeLines(title, labels, rows), tags)
  {
    var lines := PrependTagFrontmatter(SerializeLines(title, labels, rows), tags);
    var nt := NormalizedTags(tags);
    NormalizedNoBreaks(tags);
    FrontmatterNoBreaks(nt);
    var f := Frontmatter(nt);
    forall k | 0 <= k < |lines| ensures '\n' !in lines[k] {
      if k >= |f| {
        LineNoBreak(title, labels, rows, k - |f|);
      }
    }
    SplitJoin(lines, '\n');
  }

  lemma JoinNoBreak(cells: seq<String>)
    requires forall i :: 0 <= i < |cells| ==> '\n' !in cells[i]
    ensures '\n' !in RowLine(cells)
  {
    JoinAvoids(cells, " | ", '\n');
  }

  lemma LineNoBreak(title: String, labels: seq<String>, rows: seq<seq<String>>, k: nat)
    requires '\n' !in title && forall i :: 0 <= i < |labels| ==> '\n' !in labels[i]
    requires PlainRows(rows, |labels|)
    requires k < |SerializeLines(title, labels, rows)|
    ensures '\n' !in SerializeLines(title, labels, rows)[k]
  {
    var s := SerializeLines(title, labels, rows);
    var data := DataLines(labels, rows);
    if k == 2 {
      JoinNoBreak(labels);
    } else if k == 3 {
      JoinNoBreak(Dashes(|labels|));
    } else if 4 <= k < 4 + |data| {
      assert s[k] == data[k - 4];
      if rows == [] {
        JoinNoBreak(Blanks(|labels|));
      } else {
        var c := Cells(rows[k - 4], |labels|);
        assert forall i :: 0 <= i < |c| ==> '\n' !in c[i] by {
          forall i | 0 <= i < |c| ensures '\n' !in c[i] {
            if i < |rows[k - 4]| { assert PlainCell(rows[k - 4][i]); }
          }
        }
        JoinNoBreak(c);
      }
    }
  }

  /** The rows a written table holds: one per row, cut or padded to the columns, or one blank row. */
  function WrittenRows(labels: seq<String>, rows: seq<seq<String>>): seq<seq<String>>
  {
    if rows == [] then [Blanks(|labels|)] else seq(|rows|, i requires 0 <= i < |rows| => Cells(rows[i], |labels|))
  }

  lemma DataLineCells(labels: seq<String>, rows: seq<seq<String>>, k: nat)
    requires |labels| >= 1 && PlainRows(rows, |labels|)
    requires k < |DataLines(labels, rows)|
    ensures k < |WrittenRows(labels, rows)| && RowCells(DataLines(labels, rows)[k]) == WrittenRows(labels, rows)[k]
  {
    var c := if rows == [] then Blanks(|labels|) else Cells(rows[k], |labels|);
    assert DataLines(labels, rows)[k] == RowLine(c);
    forall i | 0 <= i < |c| ensures PlainCell(c[i]) {
      if rows != [] && i < |rows[k]| { assert rows[k] in rows; }
    }
    RowCellsOfRowLine(c);
  }

  lemma DataCells(labels: seq<String>, rows: seq<seq<String>>)
    requires |labels| >= 1 && PlainRows(rows, |labels|)
    ensures CellLists(DataLines(labels, rows)) == WrittenRows(labels, rows)
    ensures forall k :: 0 <= k < |WrittenRows(labels, rows)| ==> WrittenRows(labels, rows)[k] != []
  {
    var data := DataLines(labels, rows);
    var w := WrittenRows(labels, rows);
    forall k | 0 <= k < |data| ensures CellLists(data)[k] == w[k] {
      DataLineCells(labels, rows, k);
    }
  }

  /**
   * Reading back a written table gives one row per written row, padded with
   * empty cells or cut to the column count; no rows read back as one empty row.
   */
  lemma RoundTrip(title: String, labels: seq<String>, rows: seq<seq<String>>, tags: seq<String>)
    requires |labels| >= 1
    requires '\n' !in title && forall i :: 0 <= i < |labels| ==> '\n' !in labels[i]
    requires NoBreaks(tags) && PlainRows(rows, |labels|)
    ensures ParseTable(Serialize(title, labels, rows, tags)) == WrittenRows(labels, rows)
  {
    DocumentLines(title, labels, rows, tags);
    TableLinesOfDocument(title, labels, rows, tags);
    var data := DataLines(labels, rows);
    var tl := [RowLine(labels), RowLine(Dashes(|labels|))] + data;
    assert tl[2..] == data;
    DataCells(labels, rows);
    NonEmptyAll(WrittenRows(labels, rows));
  }
}
