/**
 * The table element's editor. Each edit is an updater that maps the table being edited to a
 * new `{headers, rows}`; the editor keeps that table and an editing flag, writes the table to
 * the element on save and reloads it from the element on cancel.
 */
module TableEdit {
  import opened Wrappers
  import opened Document
  import opened Reducer

  datatype Table = Table(headers: seq<string>, rows: seq<seq<string>>)

  /** Every row has one cell per header. */
  predicate Rectangular(t: Table)
  {
    forall r :: 0 <= r < |t.rows| ==> |t.rows[r]| == |t.headers|
  }

  /** The editor's starting table when the element has none. */
  function DefaultTable(): Table
  {
    Table(["Column 1", "Column 2", "Column 3"],
      [["Row 1 Col 1", "Row 1 Col 2", "Row 1 Col 3"], ["Row 2 Col 1", "Row 2 Col 2", "Row 2 Col 3"]])
  }

  /** The sequence without the item at `index`; unchanged when `index` is out of range. */
  function RemoveIndex<T>(s: seq<T>, index: int): (r: seq<T>)
    ensures 0 <= index < |s| ==> |r| == |s| - 1 && r[..index] == s[..index] && r[index..] == s[index + 1..]
    ensures !(0 <= index < |s|) ==> r == s
  {
    if 0 <= index < |s| then s[..index] + s[index + 1..] else s
  }

  /** The sequence with the item at `index` replaced; unchanged when `index` is out of range. */
  function ReplaceIndex<T>(s: seq<T>, index: int, value: T): (r: seq<T>)
    ensures |r| == |s| && forall k :: 0 <= k < |s| ==> r[k] == if k == index then value else s[k]
  {
    seq(|s|, k requires 0 <= k < |s| => if k == index then value else s[k])
  }

  // ---------------------------------------------------------------------------------------
  // The updaters

  function AddRow(t: Table): (r: Table)
    ensures r.headers == t.headers && |r.rows| == |t.rows| + 1 && r.rows[..|t.rows|] == t.rows
    ensures |r.rows[|t.rows|]| == |t.headers| && forall j :: 0 <= j < |t.headers| ==> r.rows[|t.rows|][j] == "New cell"
  {
    var newRow := seq(|t.headers|, _ => "New cell");
    var r := t.(rows := t.rows + [newRow]);
    assert r.rows[..|t.rows|] == t.rows;
    r
  }

  function AddColumn(t: Table): (r: Table)
    ensures r.headers == t.headers + ["New column"] && |r.rows| == |t.rows|
    ensures forall i :: 0 <= i < |t.rows| ==> r.rows[i] == t.rows[i] + ["New cell"]
  {
    Table(t.headers + ["New column"], seq(|t.rows|, i requires 0 <= i < |t.rows| => t.rows[i] + ["New cell"]))
  }

  function RemoveRow(t: Table, index: int): (r: Table)
    ensures r.headers == t.headers && r.rows == RemoveIndex(t.rows, index)
  {
    t.(rows := RemoveIndex(t.rows, index))
  }

  function RemoveColumn(t: Table, index: int): (r: Table)
    ensures r.headers == RemoveIndex(t.headers, index) && |r.rows| == |t.rows|
    ensures forall i :: 0 <= i < |t.rows| ==> r.rows[i] == RemoveIndex(t.rows[i], index)
  {
    Table(RemoveIndex(t.headers, index), seq(|t.rows|, i requires 0 <= i < |t.rows| => RemoveIndex(t.rows[i], index)))
  }

  /** A header edit replaces header `c`; a cell edit replaces cell `c` of row `row`. */
  function UpdateCell(t: Table, row: int, c: int, value: string, isHeader: bool): (r: Table)
    ensures isHeader ==> r.rows == t.rows && r.headers == ReplaceIndex(t.headers, c, value)
    ensures !isHeader ==> r.headers == t.headers && |r.rows| == |t.rows|
    ensures !isHeader ==>
      forall i :: 0 <= i < |t.rows| ==> r.rows[i] == if i == row then ReplaceIndex(t.rows[i], c, value) else t.rows[i]
  {
    if isHeader then t.(headers := ReplaceIndex(t.headers, c, value))
    else t.(rows := seq(|t.rows|, i requires 0 <= i < |t.rows| => if i == row then ReplaceIndex(t.rows[i], c, value) else t.rows[i]))
  }

  // ---------------------------------------------------------------------------------------
  // The edits the editor offers

  /**
   * The editor's controls: add a row or a column, the `×` buttons on a column header and at
   * the end of a row, and the inputs of the headers (`updateCell(0, i, v, true)`) and cells.
   */
  datatype Edit =
    | AddRowEdit
    | AddColumnEdit
    | RemoveRowEdit(index: int)
    | RemoveColumnEdit(index: int)
    | HeaderInput(index: int, value: string)
    | CellInput(row: int, col: int, value: string)

  function ApplyEdit(t: Table, e: Edit): Table
  {
    match e
    case AddRowEdit => AddRow(t)
    case AddColumnEdit => AddColumn(t)
    case RemoveRowEdit(i) => RemoveRow(t, i)
    case RemoveColumnEdit(i) => RemoveColumn(t, i)
    case HeaderInput(i, v) => UpdateCell(t, 0, i, v, true)
    case CellInput(r, c, v) => UpdateCell(t, r, c, v, false)
  }

  /**
   * The edits the rendered editor can produce: a column's `×` is drawn only while there is more
   * than one header and a row's only while there is more than one row, and every control sits
   * at an index of the rendered table.
   */
  predicate Offered(t: Table, e: Edit)
  {
    match e
    case AddRowEdit => true
    case AddColumnEdit => true
    case RemoveRowEdit(i) => |t.rows| > 1 && 0 <= i < |t.rows|
    case RemoveColumnEdit(i) => |t.headers| > 1 && 0 <= i < |t.headers|
    case HeaderInput(i, _) => 0 <= i < |t.headers|
    case CellInput(r, c, _) => 0 <= r < |t.rows| && 0 <= c < |t.rows[r]|
  }

  // ---------------------------------------------------------------------------------------
  // Properties

  /** Every updater keeps a rectangular table rectangular. */
  lemma EditKeepsRectangular(t: Table, e: Edit)
    requires Rectangular(t)
    ensures Rectangular(ApplyEdit(t, e))
  {
    var r := ApplyEdit(t, e);
    match e
    case AddRowEdit =>
      forall i | 0 <= i < |r.rows| ensures |r.rows[i]| == |r.headers| {
        if i < |t.rows| {
          assert r.rows[i] == r.rows[..|t.rows|][i];
        }
      }
    case AddColumnEdit =>
    case RemoveRowEdit(index) =>
      forall i | 0 <= i < |r.rows| ensures |r.rows[i]| == |r.headers| {
        if 0 <= index < |t.rows| && i >= index {
          assert r.rows[i] == r.rows[index..][i - index] == t.rows[index + 1..][i - index];
        } else if 0 <= index < |t.rows| {
          assert r.rows[i] == r.rows[..index][i];
        }
      }
    case RemoveColumnEdit(index) =>
    case HeaderInput(_, _) =>
    case CellInput(_, _, _) =>
  }

  /** The editor never removes the last column or the last row. */
  lemma OfferedKeepsShape(t: Table, e: Edit)
    requires |t.headers| >= 1 && |t.rows| >= 1 && Offered(t, e)
    ensures |ApplyEdit(t, e).headers| >= 1 && |ApplyEdit(t, e).rows| >= 1
  {
  }

  /** Adding a row and removing that row gives back the table. */
  lemma RemoveAddedRow(t: Table)
    ensures RemoveRow(AddRow(t), |t.rows|) == t
  {
    assert AddRow(t).rows[..|t.rows|] == t.rows;
  }

  /** On a rectangular table, adding a column and removing that column gives back the table. */
  lemma RemoveAddedColumn(t: Table)
    requires Rectangular(t)
    ensures RemoveColumn(AddColumn(t), |t.headers|) == t
  {
    var r := RemoveColumn(AddColumn(t), |t.headers|);
    assert r.headers == t.headers by {
      assert (t.headers + ["New column"])[..|t.headers|] == t.headers;
    }
    forall i | 0 <= i < |t.rows| ensures r.rows[i] == t.rows[i] {
      assert (t.rows[i] + ["New cell"])[..|t.headers|] == t.rows[i];
    }
  }

  /** Writing a cell's own value back changes nothing. */
  lemma UpdateSameValue(t: Table, row: int, c: int)
    requires 0 <= row < |t.rows| && 0 <= c < |t.rows[row]|
    ensures UpdateCell(t, row, c, t.rows[row][c], false) == t
  {
    var r := UpdateCell(t, row, c, t.rows[row][c], false);
    assert ReplaceIndex(t.rows[row], c, t.rows[row][c]) == t.rows[row];
    assert r.rows == t.rows;
  }

  /** A cell edit changes exactly one cell: the one it names, when the table has it. */
  lemma CellEditLocal(t: Table, row: int, c: int, value: string, i: nat, j: nat)
    requires i < |t.rows| && j < |t.rows[i]|
    ensures var r := UpdateCell(t, row, c, value, false);
      r.rows[i][j] == if i == row && j == c then value else t.rows[i][j]
  {
  }

  // ---------------------------------------------------------------------------------------
  // The editor

  /** The table stored on the element, as the editor loads it; without one, the default table. */
  function TableOf(content: Content): Table
  {
    match content
    case Grid(h, r) => Table(h, r)
    case _ => DefaultTable()
  }

  function ContentOf(t: Table): Content
  {
    Grid(t.headers, t.rows)
  }

  /** The update the save button dispatches: only the content. */
  function SaveUpdates(t: Table): Updates
  {
    Updates(Some(ContentOf(t)), None, None, None, None)
  }

  /** Saved content loads back as the same table, so cancelling right after a save changes nothing. */
  lemma SavedTableReloads(t: Table)
    ensures TableOf(ContentOf(t)) == t
    ensures SaveUpdates(t).content.Some? && SaveUpdates(t).style.None?
  {
  }

  class TableEditor {
    var tableData: Table
    var isEditing: bool

    /** `useState(element.content || default)` and a closed editor. */
    constructor(content: Content)
      ensures tableData == TableOf(content) && !isEditing
    {
      tableData := TableOf(content);
      isEditing := false;
    }

    /** A double click opens the editor on the table being edited. */
    method Open()
      modifies this
      ensures isEditing && tableData == old(tableData)
    {
      isEditing := true;
    }

    /** One of the controls: the table becomes the updater's result. */
    method EditTable(e: Edit)
      modifies this
      ensures tableData == ApplyEdit(old(tableData), e) && isEditing == old(isEditing)
    {
      tableData := ApplyEdit(tableData, e);
    }

    /** Save: dispatch `updateElement(id, {content: tableData})` and close. */
    method Save(id: string) returns (dispatched: Action)
      modifies this
      ensures dispatched == UpdateElement(id, SaveUpdates(old(tableData)))
      ensures tableData == old(tableData) && !isEditing
    {
      dispatched := UpdateElement(id, SaveUpdates(tableData));
      isEditing := false;
    }

    /** Cancel: reload the element's table and close; nothing is dispatched. */
    method Cancel(content: Content)
      modifies this
      ensures tableData == TableOf(content) && !isEditing
    {
      tableData := TableOf(content);
      isEditing := false;
    }
  }
}
