/**
 * The column-visibility control: toggling one column, the select-all button,
 * and the visible/total counter shown on the control.
 */
module ColumnVisibility {
  import opened Columns

  /** `handleColumnToggle`: every column with the key gets the given visibility; the rest are kept. */
  function Toggle(columns: seq<ColumnConfig>, key: string, visible: bool): (r: seq<ColumnConfig>)
    ensures |r| == |columns| && forall i :: 0 <= i < |r| ==> r[i].key == columns[i].key
    ensures forall i :: 0 <= i < |r| && columns[i].key == key ==> r[i].visible == visible
    ensures forall i :: 0 <= i < |r| && columns[i].key != key ==> r[i] == columns[i]
  {
    seq(|columns|, i requires 0 <= i < |columns| =>
      if columns[i].key == key then columns[i].(visible := visible) else columns[i])
  }

  /** `columns.every(col => col.visible)`. */
  predicate AllVisible(columns: seq<ColumnConfig>) {
    forall i :: 0 <= i < |columns| ==> columns[i].visible
  }

  /** `handleSelectAll`: all hidden when all were visible, otherwise all visible. */
  function SelectAll(columns: seq<ColumnConfig>): (r: seq<ColumnConfig>)
    ensures |r| == |columns| && forall i :: 0 <= i < |r| ==> r[i].key == columns[i].key
    ensures AllVisible(columns) ==> forall i :: 0 <= i < |r| ==> !r[i].visible
    ensures !AllVisible(columns) ==> AllVisible(r)
  {
    var show := !AllVisible(columns);
    seq(|columns|, i requires 0 <= i < |columns| => columns[i].(visible := show))
  }

  /** `columns.filter(col => col.visible).length`. */
  function VisibleCount(columns: seq<ColumnConfig>): (n: nat)
    ensures n <= |columns|
  {
    if |columns| == 0 then 0
    else VisibleCount(columns[..|columns| - 1]) + (if columns[|columns| - 1].visible then 1 else 0)
  }

  /**
   * Toggling changes only the visibility of the columns with that key: length,
   * order and every other field are kept.
   */
  lemma ToggleChangesOnlyVisibility(columns: seq<ColumnConfig>, key: string, visible: bool)
    ensures var r := Toggle(columns, key, visible);
      && |r| == |columns|
      && (forall i :: 0 <= i < |r| ==> r[i].(visible := columns[i].visible) == columns[i])
      && (forall i :: 0 <= i < |r| ==> r[i].visible == if columns[i].key == key then visible else columns[i].visible)
  {
  }

  /** Toggling back to the previous visibility restores the columns. */
  lemma ToggleBack(columns: seq<ColumnConfig>, key: string, visible: bool, previous: bool)
    requires forall i :: 0 <= i < |columns| && columns[i].key == key ==> columns[i].visible == previous
    ensures Toggle(Toggle(columns, key, visible), key, previous) == columns
  {
  }

  /**
   * Select-all: if every column was visible all become hidden, otherwise all
   * become visible; either way they end up sharing one visibility, and nothing
   * else changes.
   */
  lemma SelectAllSetsOneVisibility(columns: seq<ColumnConfig>)
    ensures var r := SelectAll(columns);
      && |r| == |columns|
      && (AllVisible(columns) ==> forall i :: 0 <= i < |r| ==> !r[i].visible)
      && (!AllVisible(columns) ==> AllVisible(r))
      && (forall i, j :: 0 <= i < |r| && 0 <= j < |r| ==> r[i].visible == r[j].visible)
      && (forall i :: 0 <= i < |r| ==> r[i].(visible := columns[i].visible) == columns[i])
  {
  }

  /** On a non-empty, all-hidden list, select-all shows every column. */
  lemma SelectAllShowsHidden(columns: seq<ColumnConfig>)
    requires |columns| > 0 && forall i :: 0 <= i < |columns| ==> !columns[i].visible
    ensures AllVisible(SelectAll(columns))
    ensures VisibleCount(SelectAll(columns)) == |columns|
  {
    assert !columns[0].visible;
    VisibleCountFull(SelectAll(columns));
  }

  /** The counter: visible never exceeds total, and equals it exactly when every column is visible. */
  lemma {:induction false} VisibleCountFull(columns: seq<ColumnConfig>)
    ensures VisibleCount(columns) <= |columns|
    ensures VisibleCount(columns) == |columns| <==> AllVisible(columns)
  {
    if |columns| > 0 {
      var init := columns[..|columns| - 1];
      VisibleCountFull(init);
      assert forall i :: 0 <= i < |init| ==> init[i] == columns[i];
    }
  }

  /** Toggling a column on never lowers the count, toggling it off never raises it. */
  lemma {:induction false} ToggleMovesCount(columns: seq<ColumnConfig>, key: string, visible: bool)
    ensures visible ==> VisibleCount(Toggle(columns, key, visible)) >= VisibleCount(columns)
    ensures !visible ==> VisibleCount(Toggle(columns, key, visible)) <= VisibleCount(columns)
  {
    if |columns| > 0 {
      var init := columns[..|columns| - 1];
      var r := Toggle(columns, key, visible);
      assert r[..|r| - 1] == Toggle(init, key, visible);
      ToggleMovesCount(init, key, visible);
    }
  }
}
