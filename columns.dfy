/**
 * The column configuration shared by the record table's column controls:
 * which field a column shows, whether it is visible, and the table-layout
 * attributes the drag-and-drop table reads and writes.
 */
module Columns {
  import opened Wrappers

  /** Horizontal alignment of a column's cells. */
  datatype Align = Left | Center | Right

  /**
   * One column. `description`, `order`, `cellAlign` and `width` may be
   * absent; an absent `required` flag is false.
   */
  datatype ColumnConfig = ColumnConfig(
    key: string,
    columnLabel: string,   // `label`
    description: Option<string>,
    visible: bool,
    required: bool,
    order: Option<int>,
    cellAlign: Option<Align>,
    width: Option<real>
  )

  /** `columns.findIndex(col => col.key === key)`: the first column with the key, or -1. */
  function KeyIndex(columns: seq<ColumnConfig>, key: string): (i: int)
    ensures -1 <= i < |columns|
    ensures i >= 0 ==> columns[i].key == key && forall j :: 0 <= j < i ==> columns[j].key != key
    ensures i == -1 <==> forall j :: 0 <= j < |columns| ==> columns[j].key != key
  {
    if |columns| == 0 then -1
    else if columns[0].key == key then 0
    else
      var i := KeyIndex(columns[1..], key);
      assert forall j :: 1 <= j < |columns| ==> columns[j] == columns[1..][j - 1];
      if i == -1 then -1 else i + 1
  }
}
