/**
 * The routine table shared by the weekly plan and the weekly shared note: a
 * Markdown table with a title column and one check column per day from
 * Monday to Saturday, each row one routine action.
 */
module Routines {
  import opened Text
  import TableSection
  import MarkdownTags

  /** The six routine days, Monday to Saturday; Sunday has no column. */
  const RoutineDays: seq<String> := ["月", "火", "水", "木", "金", "土"]

  /** A routine action: a title and a check per day, keyed by the day's name. */
  datatype Routine = Routine(title: String, checks: map<String, bool>)

  /** A missing day counts as unchecked. */
  predicate Checked(r: Routine, day: String)
  {
    day in r.checks && r.checks[day]
  }

  /** The six checks as a map keyed by the routine days. */
  function DayChecks(f: seq<bool>): (m: map<String, bool>)
    requires |f| == 6
    ensures m.Keys == {"月", "火", "水", "木", "金", "土"}
    ensures forall i :: 0 <= i < 6 ==> m[RoutineDays[i]] == f[i]
  {
    map["月" := f[0], "火" := f[1], "水" := f[2], "木" := f[3], "金" := f[4], "土" := f[5]]
  }

  /** What a row keeps of a routine: its title and its six day checks, every other key dropped. */
  function Kept(r: Routine): Routine
  {
    Routine(r.title, DayChecks(seq(6, i requires 0 <= i < 6 => Checked(r, RoutineDays[i]))))
  }

  /** What the rows of a table keep of its routines. */
  function KeptAll(rs: seq<Routine>): seq<Routine>
  {
    seq(|rs|, i requires 0 <= i < |rs| => Kept(rs[i]))
  }

  lemma KeptAllSnoc(rs: seq<Routine>)
    requires rs != []
    ensures KeptAll(rs) == KeptAll(rs[..|rs| - 1]) + [Kept(rs[|rs| - 1])]
  {
    var a := KeptAll(rs);
    var b := KeptAll(rs[..|rs| - 1]) + [Kept(rs[|rs| - 1])];
    forall i | 0 <= i < |rs| ensures a[i] == b[i] {
      if i < |rs| - 1 { assert rs[..|rs| - 1][i] == rs[i]; }
    }
  }

  // ---------------------------------------------------------------------
  // writing

  function Mark(b: bool): String
  {
    if b then "[x]" else "[ ]"
  }

  function Marks(r: Routine): seq<String>
  {
    seq(6, i requires 0 <= i < 6 => Mark(Checked(r, RoutineDays[i])))
  }

  const HeaderRow: String := TableSection.RowLine(["行動"] + RoutineDays)

  const SeparatorRow: String := TableSection.RowLine(["---", "---", "---", "---", "---", "---", "---"])

  /** The row written when there are no routines: an empty title and six unchecked boxes. */
  const BlankRow: String := TableSection.RowLine(["", "[ ]", "[ ]", "[ ]", "[ ]", "[ ]", "[ ]"])

  function RoutineRow(r: Routine): String
  {
    TableSection.RowLine([r.title] + Marks(r))
  }

  function RowsOf(rs: seq<Routine>): (rows: seq<String>)
    ensures |rows| == |rs|
  {
    seq(|rs|, i requires 0 <= i < |rs| => RoutineRow(rs[i]))
  }

  function RoutineRows(rs: seq<Routine>): seq<String>
  {
    if rs == [] then [BlankRow] else RowsOf(rs)
  }

  /** The table: header, separator and the rows. */
  function RoutineTable(rs: seq<Routine>): seq<String>
  {
    [HeaderRow, SeparatorRow] + RoutineRows(rs)
  }

  lemma RowsOfSnoc(rs: seq<Routine>, i: nat)
    requires i < |rs|
    ensures RowsOf(rs[..i + 1]) == RowsOf(rs[..i]) + [RoutineRow(rs[i])]
  {
    var a := RowsOf(rs[..i + 1]);
    var b := RowsOf(rs[..i]) + [RoutineRow(rs[i])];
    forall k | 0 <= k <= i ensures a[k] == b[k] {
      assert rs[..i + 1][k] == rs[k];
      if k < i { assert rs[..i][k] == rs[k]; }
    }
  }

  /** Pushing the rows, one per routine, after `lines`. */
  method AppendRows(lines: seq<String>, rs: seq<Routine>) returns (r: seq<String>)
    ensures r == lines + RowsOf(rs)
  {
    r := lines;
    var i := 0;
    while i < |rs|
      invariant 0 <= i <= |rs|
      invariant r == lines + RowsOf(rs[..i])
    {
      RowsOfSnoc(rs, i);
      r := r + [RoutineRow(rs[i])];
      i := i + 1;
    }
    assert rs[..i] == rs;
  }

  /** Pushing the table lines after `lines`. */
  method AppendRoutineTable(lines: seq<String>, rs: seq<Routine>) returns (r: seq<String>)
    ensures r == lines + RoutineTable(rs)
  {
    r := lines + [HeaderRow, SeparatorRow];
    if |rs| == 0 {
      r := r + [BlankRow];
    } else {
      r := AppendRows(r, rs);
    }
  }

  // ---------------------------------------------------------------------
  // reading

  /** String.prototype.includes. */
  predicate Includes(s: String, t: String)
  {
    exists i :: 0 <= i <= |s| - |t| && StartsWith(s[i..], t)
  }

  /** A missing cell reads as the empty string. */
  function CellAt(cells: seq<String>, i: nat): String
  {
    if i < |cells| then cells[i] else []
  }

  /** The cells of a line: split on `|`, each trimmed, the pieces before the first and after the last `|` included. */
  function TrimmedCells(line: String): (cells: seq<String>)
    ensures |cells| == |Split(line, '|')|
  {
    var parts := Split(line, '|');
    seq(|parts|, i requires 0 <= i < |parts| => Trim(parts[i]))
  }

  /** Each day is checked when its cell (the one after the title, in day order) holds `[x]`. */
  function ChecksOf(cells: seq<String>): map<String, bool>
  {
    DayChecks(seq(6, i requires 0 <= i < 6 => Includes(CellAt(cells, i + 2), "[x]")))
  }

  /**
   * A line of the routine section: one starting with `|` whose second cell is
   * a title other than the header's and the separator's gives a routine.
   */
  function ReadRow(line: String): (r: Option<Routine>)
    ensures r.Some? ==> StartsWith(line, "|") && r.value.title != [] && r.value.title != "行動" && r.value.title != "---"
    ensures r.Some? ==> r.value.checks.Keys == {"月", "火", "水", "木", "金", "土"}
  {
    if !StartsWith(line, "|") then None
    else
      var cells := TrimmedCells(line);
      if |cells| >= 3 && cells[1] != "行動" && cells[1] != "---" && cells[1] != [] then
        Some(Routine(cells[1], ChecksOf(cells)))
      else None
  }

  // ---------------------------------------------------------------------
  // properties

  /** A title that reads back as itself. */
  predicate PlainTitle(t: String)
  {
    TableSection.PlainCell(t) && t != [] && t != "行動" && t != "---"
  }

  /** Sunday, or any key other than the six days, is never checked after a row is read. */
  lemma KeptDays(r: Routine, day: String)
    ensures Checked(Kept(r), day) <==> day in RoutineDays && Checked(r, day)
  {
    var k := Kept(r);
    if day in RoutineDays {
      var i :| 0 <= i < 6 && RoutineDays[i] == day;
      assert k.checks[RoutineDays[i]] == Checked(r, RoutineDays[i]);
    }
  }

  /** Keeping is idempotent. */
  lemma KeptKept(r: Routine)
    ensures Kept(Kept(r)) == Kept(r)
  {
    var a := seq(6, i requires 0 <= i < 6 => Checked(Kept(r), RoutineDays[i]));
    var b := seq(6, i requires 0 <= i < 6 => Checked(r, RoutineDays[i]));
    forall i | 0 <= i < 6 ensures a[i] == b[i] {
      KeptDays(r, RoutineDays[i]);
    }
    assert a == b;
  }

  lemma MarkIncludes(b: bool)
    ensures Includes(Mark(b), "[x]") == b
  {
    if b {
      assert StartsWith(Mark(b)[0..], "[x]");
    } else {
      forall i | 0 <= i <= |Mark(b)| - 3 ensures !StartsWith(Mark(b)[i..], "[x]") {
        assert Mark(b)[i..][1] == ' ';
      }
    }
  }

  /** A written row of plain cells splits into an empty piece, the cells and an empty piece. */
  lemma CellsOfRowLine(cells: seq<String>)
    requires |cells| >= 1 && forall i :: 0 <= i < |cells| ==> TableSection.PlainCell(cells[i])
    ensures TrimmedCells(TableSection.RowLine(cells)) == [[]] + cells + [[]]
  {
    TableSection.RowLineAsPieces(cells);
    var pieces := [[]] + TableSection.Padded(cells) + [[]];
    forall k | 0 <= k < |pieces| ensures '|' !in pieces[k] {
      if 0 < k < |pieces| - 1 {
        assert pieces[k] == " " + cells[k - 1] + " ";
      }
    }
    SplitJoin(pieces, '|');
    var t := TrimmedCells(TableSection.RowLine(cells));
    var w := [[]] + cells + [[]];
    forall i | 0 <= i < |t| ensures t[i] == w[i] {
      if 0 < i < |t| - 1 {
        assert pieces[i] == " " + cells[i - 1] + " ";
        TableSection.CellTrims(cells[i - 1]);
      }
    }
  }

  lemma MarksPlain(r: Routine)
    ensures forall i :: 0 <= i < 6 ==> TableSection.PlainCell(Marks(r)[i]) && Includes(Marks(r)[i], "[x]") == Checked(r, RoutineDays[i])
  {
    forall i | 0 <= i < 6
      ensures TableSection.PlainCell(Marks(r)[i]) && Includes(Marks(r)[i], "[x]") == Checked(r, RoutineDays[i])
    {
      MarkIncludes(Checked(r, RoutineDays[i]));
    }
  }

  /** The trimmed cells of a written routine row. */
  lemma RoutineRowCells(r: Routine)
    requires PlainTitle(r.title)
    ensures TrimmedCells(RoutineRow(r)) == [[], r.title] + Marks(r) + [[]]
  {
    var cells := [r.title] + Marks(r);
    MarksPlain(r);
    forall i | 0 <= i < |cells| ensures TableSection.PlainCell(cells[i]) {
      if i > 0 { assert cells[i] == Marks(r)[i - 1]; }
    }
    CellsOfRowLine(cells);
    assert [[]] + cells + [[]] == [[], r.title] + Marks(r) + [[]];
  }

  /** The checks read from a written row's cells are the routine's six day checks. */
  lemma ChecksOfMarks(r: Routine, t: seq<String>)
    requires t == [[], r.title] + Marks(r) + [[]]
    ensures ChecksOf(t) == Kept(r).checks
  {
    MarksPlain(r);
    var a := seq(6, i requires 0 <= i < 6 => Includes(CellAt(t, i + 2), "[x]"));
    var b := seq(6, i requires 0 <= i < 6 => Checked(r, RoutineDays[i]));
    forall i | 0 <= i < 6 ensures a[i] == b[i] {
      assert CellAt(t, i + 2) == Marks(r)[i];
    }
    assert a == b;
  }

  /** A written routine with a plain title reads back as its title and its six day checks. */
  lemma RowReadBack(r: Routine)
    requires PlainTitle(r.title)
    ensures ReadRow(RoutineRow(r)) == Some(Kept(r))
  {
    var line := RoutineRow(r);
    assert line[0] == '|';
    RoutineRowCells(r);
    var t := TrimmedCells(line);
    assert t[1] == r.title && |t| == 9;
    ChecksOfMarks(r, t);
  }

  /** The header row is not a routine. */
  lemma HeaderRowSkipped()
    ensures ReadRow(HeaderRow) == None
  {
    var h := ["行動"] + RoutineDays;
    forall i | 0 <= i < |h| ensures TableSection.PlainCell(h[i]) {
      assert h[i] in {"行動", "月", "火", "水", "木", "金", "土"};
    }
    CellsOfRowLine(h);
    assert TrimmedCells(HeaderRow)[1] == "行動";
  }

  /** The separator row is not a routine. */
  lemma SeparatorRowSkipped()
    ensures ReadRow(SeparatorRow) == None
  {
    var d := ["---", "---", "---", "---", "---", "---", "---"];
    forall i | 0 <= i < |d| ensures TableSection.PlainCell(d[i]) {
      assert d[i] == "---";
    }
    CellsOfRowLine(d);
    assert TrimmedCells(SeparatorRow)[1] == "---";
  }

  /** The placeholder row has an empty title and reads as no routine. */
  lemma BlankRowSkipped()
    ensures ReadRow(BlankRow) == None
  {
    var b := ["", "[ ]", "[ ]", "[ ]", "[ ]", "[ ]", "[ ]"];
    forall i | 0 <= i < |b| ensures TableSection.PlainCell(b[i]) {
      assert b[i] in {"", "[ ]"};
    }
    CellsOfRowLine(b);
    assert TrimmedCells(BlankRow)[1] == "";
  }

  /** The header, separator and placeholder rows are single lines. */
  lemma FixedRowsNoBreak()
    ensures '\n' !in HeaderRow && '\n' !in SeparatorRow && '\n' !in BlankRow
  {
    var h := ["行動"] + RoutineDays;
    forall i | 0 <= i < |h| ensures '\n' !in h[i] {
      assert h[i] in {"行動", "月", "火", "水", "木", "金", "土"};
    }
    TableSection.JoinNoBreak(h);
    var d := ["---", "---", "---", "---", "---", "---", "---"];
    forall i | 0 <= i < |d| ensures '\n' !in d[i] {
      assert d[i] == "---";
    }
    TableSection.JoinNoBreak(d);
    var b := ["", "[ ]", "[ ]", "[ ]", "[ ]", "[ ]", "[ ]"];
    forall i | 0 <= i < |b| ensures '\n' !in b[i] {
      assert b[i] in {"", "[ ]"};
    }
    TableSection.JoinNoBreak(b);
  }

  /** A routine row with a plain title is a single line. */
  lemma RowNoBreak(r: Routine)
    requires PlainTitle(r.title)
    ensures '\n' !in RoutineRow(r)
  {
    var cells := [r.title] + Marks(r);
    MarksPlain(r);
    forall i | 0 <= i < |cells| ensures '\n' !in cells[i] {
      if i > 0 { assert cells[i] == Marks(r)[i - 1]; }
    }
    TableSection.JoinNoBreak(cells);
  }

  /** Rows only come from lines starting with `|`. */
  lemma NoRowWithoutBar(line: String)
    requires line == [] || line[0] != '|'
    ensures ReadRow(line) == None
  {
  }

  /** A table of plain titles keeps one row per line. */
  lemma TableNoBreaks(rs: seq<Routine>)
    requires forall i :: 0 <= i < |rs| ==> PlainTitle(rs[i].title)
    ensures MarkdownTags.NoBreaks(RoutineTable(rs))
  {
    FixedRowsNoBreak();
    var rows := RoutineRows(rs);
    forall k | 0 <= k < |rows| ensures '\n' !in rows[k] {
      if rs != [] {
        RowNoBreak(rs[k]);
      }
    }
    MarkdownTags.NoBreaksConcat([HeaderRow, SeparatorRow], rows);
  }
}
