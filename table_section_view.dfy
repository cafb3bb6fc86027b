/**
 * The table screen: the rows it edits, what a cell shows and what each edit
 * (typing into a cell, the add button, the delete command) does to the rows
 * and to the document saved after it.
 */
module TableSectionView {
  import opened Text
  import TableSection
  import MarkdownTags

  // ---------------------------------------------------------------------
  // cells

  /** `row[colIndex] ?? ""`: a missing cell shows and is written as empty. */
  function CellAt(row: seq<String>, col: nat): String
  {
    if col < |row| then row[col] else []
  }

  /**
   * `row[colIndex] = value`: a cell past the end of the row lengthens it, the
   * cells in between being holes, which read as empty.
   */
  function WriteCell(row: seq<String>, col: nat, value: String): (r: seq<String>)
    ensures |r| == if col < |row| then |row| else col + 1
    ensures CellAt(r, col) == value
    ensures forall j: nat :: j != col ==> CellAt(r, j) == CellAt(row, j)
  {
    if col < |row| then row[col := value] else row + seq(col - |row|, _ => []) + [value]
  }

  /**
   * The rows after typing `value` into cell (`rowIndex`, `colIndex`): an
   * absent row (one past the end) starts empty.
   */
  function SetCell(rows: seq<seq<String>>, rowIndex: nat, colIndex: nat, value: String): (r: seq<seq<String>>)
    requires rowIndex <= |rows|
    ensures |r| == if rowIndex < |rows| then |rows| else |rows| + 1
    ensures CellAt(r[rowIndex], colIndex) == value
    ensures forall j: nat :: j != colIndex ==>
      CellAt(r[rowIndex], j) == if rowIndex < |rows| then CellAt(rows[rowIndex], j) else []
    ensures forall i :: 0 <= i < |rows| && i != rowIndex ==> r[i] == rows[i]
  {
    var row := if rowIndex < |rows| then rows[rowIndex] else [];
    var written := WriteCell(row, colIndex, value);
    if rowIndex < |rows| then rows[rowIndex := written] else rows + [written]
  }

  /** The value a checkbox cell stores: `x` when ticked, empty otherwise. */
  function CheckboxValue(checked: bool): (v: String)
    ensures Ticked(v) <==> checked
  {
    if checked then "x" else ""
  }

  /** A checkbox cell shows ticked exactly for the value `x`. */
  predicate Ticked(value: String)
  {
    value == "x"
  }

  /** A select cell with no value shows its first option, if it has any. */
  function SelectShown(value: String, options: seq<String>): (shown: String)
    ensures value != [] ==> shown == value
    ensures value == [] && options != [] ==> shown == options[0] && shown in options
  {
    if value == [] && |options| > 0 then options[0] else value
  }

  // ---------------------------------------------------------------------
  // rows shown

  /** The rows shown after loading: at least one, an empty table showing one empty row. */
  function Shown(loaded: seq<seq<String>>): (r: seq<seq<String>>)
    ensures r != []
    ensures loaded != [] ==> r == loaded
  {
    if loaded == [] then [[]] else loaded
  }

  /**
   * What reopening the screen shows after the rows were saved: one row per
   * saved row with exactly one cell per column, or a single row of empty
   * cells when there was none.
   */
  lemma ReopenShowsSaved(title: String, labels: seq<String>, rows: seq<seq<String>>, tags: seq<String>)
    requires |labels| >= 1
    requires '\n' !in title && forall i :: 0 <= i < |labels| ==> '\n' !in labels[i]
    requires MarkdownTags.NoBreaks(tags) && TableSection.PlainRows(rows, |labels|)
    ensures var shown := Shown(TableSection.LoadRows(TableSection.Serialize(title, labels, rows, tags), title, labels, tags).0);
            |shown| == (if rows == [] then 1 else |rows|) &&
            (forall i :: 0 <= i < |shown| ==> |shown[i]| == |labels|) &&
            (forall i, j: nat :: 0 <= i < |shown| && i < |rows| ==> CellAt(shown[i], j) == if j < |labels| then CellAt(rows[i], j) else [])
  {
    var doc := TableSection.Serialize(title, labels, rows, tags);
    assert doc != [] by {
      TableSection.DocumentLines(title, labels, rows, tags);
    }
    TableSection.RoundTrip(title, labels, rows, tags);
  }

  // ---------------------------------------------------------------------
  // the editor

  /**
   * The rows a table screen edits, with the document each edit saves. The
   * screen is redrawn after every change, so a cell's row index is at most
   * one past the last row.
   */
  class TableEditor {
    const title: String
    const labels: seq<String>
    const tags: seq<String>
    var rows: seq<seq<String>>

    predicate Valid()
      reads this
    {
      rows != []
    }

    /** The document saved for the current rows. */
    function Saved(): String
      reads this
    {
      TableSection.Serialize(title, labels, rows, tags)
    }

    /**
     * A screen not yet loaded: no rows, as the field starts out, so not yet
     * `Valid()`; Load must run before any edit.
     */
    constructor(title: String, labels: seq<String>, tags: seq<String>)
      ensures this.title == title && this.labels == labels && this.tags == tags
      ensures rows == []
    {
      this.title := title;
      this.labels := labels;
      this.tags := tags;
      rows := [];
    }

    /**
     * Drawing the table: the rows are read from `content`; a missing or empty
     * document gives the empty table, which is written as `seed`, and an
     * empty table shows one empty row.
     */
    method Load(content: String) returns (seed: Option<String>)
      modifies this
      ensures Valid()
      ensures rows == Shown(if content == [] then [] else TableSection.ParseTable(content))
      ensures seed == if content == [] then Some(TableSection.Serialize(title, labels, [], tags)) else None
    {
      var loaded := TableSection.LoadRows(content, title, labels, tags);
      rows := loaded.0;
      if |rows| == 0 {
        rows := rows + [[]];
      }
      seed := loaded.1;
    }

    /** Typing into a cell changes that cell alone and saves. */
    method SetCellAt(rowIndex: nat, colIndex: nat, value: String) returns (written: String)
      requires Valid() && rowIndex <= |rows|
      modifies this
      ensures Valid()
      ensures rows == SetCell(old(rows), rowIndex, colIndex, value)
      ensures written == Saved()
    {
      var row := if rowIndex < |rows| then rows[rowIndex] else [];
      row := WriteCell(row, colIndex, value);
      if rowIndex < |rows| {
        rows := rows[rowIndex := row];
      } else {
        rows := rows + [row];
      }
      written := Saved();
    }

    /** The add button appends one empty row and saves. */
    method AddRow() returns (written: String)
      requires Valid()
      modifies this
      ensures Valid()
      ensures rows == old(rows) + [[]]
      ensures written == Saved()
    {
      rows := rows + [[]];
      written := Saved();
    }

    /** The delete command removes one row, keeps at least one, and saves. */
    method RemoveRow(rowIndex: nat) returns (written: String)
      requires Valid() && rowIndex < |rows|
      modifies this
      ensures Valid()
      ensures rows == RemoveAt(old(rows), rowIndex, [])
      ensures written == Saved()
    {
      rows := rows[..rowIndex] + rows[rowIndex + 1..];
      if |rows| == 0 {
        rows := rows + [[]];
      }
      written := Saved();
    }
  }
}
