/** The result store of icam/main2.py: a read-modify-write append of (timestamp,
    payload) rows to one workbook. The workbook is modelled by its rows; `None`
    stands for "the file does not exist". */
module ResultStore {
  import opened Optional

  /** One stored row: the capture time and the decoded payload. */
  datatype Row = Row(timestamp: string, decoded: string)

  /** The fixed name of the workbook. */
  const FileName: string := "qr_code_data.xlsx"

  /** The fixed column names of the sheet. */
  const Columns: seq<string> := ["Timestamp", "Decoded Data"]

  /** The sheet written back: its header and its rows. */
  datatype Sheet = Sheet(columns: seq<string>, rows: seq<Row>)

  /** The effect of one save: the name returned and the sheet written to it. */
  datatype Saved = Saved(file: string, sheet: Sheet)

  /** Rows already stored; none when there is no file. */
  function StoredRows(existing: Option<seq<Row>>): seq<Row>
  {
    if existing.Some? then existing.value else []
  }

  /** Append `data` to the stored rows (or create the sheet from `data` alone) and
      write the whole sheet back; always returns the fixed file name. */
  function SaveToExcel(existing: Option<seq<Row>>, data: seq<Row>): (s: Saved)
    ensures s.file == FileName
    ensures s.sheet.columns == Columns && |s.sheet.columns| == 2
    ensures |s.sheet.rows| == |StoredRows(existing)| + |data|
    ensures s.sheet.rows[..|StoredRows(existing)|] == StoredRows(existing)
    ensures s.sheet.rows[|StoredRows(existing)|..] == data
    ensures existing.None? ==> s.sheet.rows == data
  {
    var fileName := FileName;
    if existing.Some? then
      var combined := existing.value + data;
      Saved(fileName, Sheet(Columns, combined))
    else
      Saved(fileName, Sheet(Columns, data))
  }

  /** The store after a save, as rows. The model takes a later read to return the rows
      as written; pandas' reading of NA-like cells is not modelled. */
  function After(existing: Option<seq<Row>>, data: seq<Row>): Option<seq<Row>>
  {
    Some(SaveToExcel(existing, data).sheet.rows)
  }

  /** Two saves in sequence store the same rows as one save of both batches, in order. */
  lemma SaveTwice(existing: Option<seq<Row>>, first: seq<Row>, second: seq<Row>)
    ensures After(After(existing, first), second) == After(existing, first + second)
    ensures StoredRows(After(After(existing, first), second)) == StoredRows(existing) + first + second
  {
    var once := SaveToExcel(existing, first).sheet.rows;
    assert once == StoredRows(existing) + first;
    var twice := SaveToExcel(Some(once), second).sheet.rows;
    assert twice == once + second;
    assert SaveToExcel(existing, first + second).sheet.rows == StoredRows(existing) + (first + second);
    assert StoredRows(existing) + first + second == StoredRows(existing) + (first + second);
  }
}
