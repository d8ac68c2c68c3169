/**
 * The record table's column layout operations: reordering by drag and drop,
 * cycling a column's alignment, and resizing a column by mouse drag.
 */
module DraggableTable {
  import opened Wrappers
  import opened Columns

  // ---------------------------------------------------------------- reorder

  /** `s` without its element at index i. */
  function RemoveAt<T>(s: seq<T>, i: nat): seq<T>
    requires i < |s|
  {
    s[..i] + s[i + 1..]
  }

  /** `s` with `x` inserted before index i. */
  function InsertAt<T>(s: seq<T>, i: nat, x: T): seq<T>
    requires i <= |s|
  {
    s[..i] + [x] + s[i..]
  }

  /** The element at index `from` taken out and put back at index `to` of the shortened sequence. */
  function Moved<T>(s: seq<T>, from: nat, to: nat): seq<T>
    requires from < |s| && to < |s|
  {
    InsertAt(RemoveAt(s, from), to, s[from])
  }

  /** After the move every non-required column's order is its index; required columns have none. */
  function Renumber(columns: seq<ColumnConfig>): seq<ColumnConfig> {
    seq(|columns|, i requires 0 <= i < |columns| =>
      columns[i].(order := if columns[i].required then None else Some(i)))
  }

  /**
   * `handleDrop`: nothing happens (None) when no column is being dragged (the
   * source's `!draggedColumn` also treats an empty key as no drag), when it is
   * dropped on itself, or when either key is unknown. Otherwise the
   * dragged column is spliced out of a copy and spliced back in at the target's
   * index, and the orders are renumbered.
   */
  method HandleDrop(columns: seq<ColumnConfig>, dragged: Option<string>, target: string)
    returns (r: Option<seq<ColumnConfig>>)
    ensures dragged.None? || dragged.value == "" || dragged.value == target ==> r.None?
    ensures dragged.Some? && (KeyIndex(columns, dragged.value) == -1 || KeyIndex(columns, target) == -1) ==> r.None?
    ensures r.Some? <==> dragged.Some? && dragged.value != "" && dragged.value != target
                         && KeyIndex(columns, dragged.value) >= 0 && KeyIndex(columns, target) >= 0
    ensures r.Some? ==> r.value == Renumber(Moved(columns, KeyIndex(columns, dragged.value), KeyIndex(columns, target)))
  {
    if dragged.None? || dragged.value == "" || dragged.value == target {
      return None;
    }
    var draggedIndex := KeyIndex(columns, dragged.value);
    var targetIndex := KeyIndex(columns, target);
    if draggedIndex == -1 || targetIndex == -1 {
      return None;
    }
    var newColumns := columns;
    var draggedColumnData := newColumns[draggedIndex];
    newColumns := newColumns[..draggedIndex] + newColumns[draggedIndex + 1..];
    newColumns := newColumns[..targetIndex] + [draggedColumnData] + newColumns[targetIndex..];
    r := Some(Renumber(newColumns));
  }

  /**
   * The move is a permutation of the same length that puts the moved element
   * at the target index and keeps every other element in its relative order.
   */
  lemma MovedIsReorder<T>(s: seq<T>, from: nat, to: nat)
    requires from < |s| && to < |s|
    ensures |Moved(s, from, to)| == |s|
    ensures multiset(Moved(s, from, to)) == multiset(s)
    ensures Moved(s, from, to)[to] == s[from]
    ensures RemoveAt(Moved(s, from, to), to) == RemoveAt(s, from)
  {
    var rest := RemoveAt(s, from);
    var m := Moved(s, from, to);
    assert s == s[..from] + [s[from]] + s[from + 1..];
    calc {
      multiset(m);
      multiset(rest[..to]) + multiset([s[from]]) + multiset(rest[to..]);
      { assert rest == rest[..to] + rest[to..]; }
      multiset(rest) + multiset([s[from]]);
      multiset(s[..from]) + multiset(s[from + 1..]) + multiset([s[from]]);
      multiset(s);
    }
    assert m[..to] == rest[..to] && m[to + 1..] == rest[to..];
    assert RemoveAt(m, to) == rest[..to] + rest[to..];
  }

  /** Renumbering touches only `order`: none for required columns, the index for the others. */
  lemma RenumberSetsOrders(columns: seq<ColumnConfig>)
    ensures var r := Renumber(columns);
      && |r| == |columns|
      && (forall i :: 0 <= i < |r| ==> r[i].(order := columns[i].order) == columns[i])
      && (forall i :: 0 <= i < |r| ==> (r[i].required ==> r[i].order.None?))
      && (forall i :: 0 <= i < |r| ==> (!r[i].required ==> r[i].order == Some(i)))
  {
  }

  /**
   * A successful drop keeps the columns (up to their orders), puts the dragged
   * column at the target's original index, keeps the others in their relative
   * order, and numbers the non-required columns by position.
   */
  lemma DropReorders(columns: seq<ColumnConfig>, from: nat, to: nat)
    requires from < |columns| && to < |columns|
    ensures var r := Renumber(Moved(columns, from, to));
      && |r| == |columns|
      && r[to].key == columns[from].key
      && r[to] == columns[from].(order := r[to].order)
      && multiset(Moved(columns, from, to)) == multiset(columns)
      && RemoveAt(Moved(columns, from, to), to) == RemoveAt(columns, from)
      && forall i :: 0 <= i < |r| ==> r[i].order == if r[i].required then None else Some(i)
  {
    MovedIsReorder(columns, from, to);
    RenumberSetsOrders(Moved(columns, from, to));
  }

  // ---------------------------------------------------------------- alignment

  /** `cellAlign || "left"`: an absent alignment counts as left. */
  function EffectiveAlign(a: Option<Align>): Align {
    if a.Some? then a.value else Left
  }

  /** left -> center -> right -> left. */
  function NextAlign(a: Align): Align {
    match a
    case Left => Center
    case Center => Right
    case Right => Left
  }

  /**
   * `handleAlignChange`: nothing happens (None) for an unknown key; otherwise
   * the next alignment after the first matching column's is given to every
   * column with that key.
   */
  function AlignChange(columns: seq<ColumnConfig>, key: string): (r: Option<seq<ColumnConfig>>)
    ensures r.None? <==> KeyIndex(columns, key) == -1
    ensures r.Some? ==> |r.value| == |columns|
  {
    var i := KeyIndex(columns, key);
    if i == -1 then None
    else
      var next := NextAlign(EffectiveAlign(columns[i].cellAlign));
      Some(seq(|columns|, j requires 0 <= j < |columns| =>
        if columns[j].key == key then columns[j].(cellAlign := Some(next)) else columns[j]))
  }

  /** The cycle has length three. */
  lemma NextAlignCycle(a: Align)
    ensures NextAlign(NextAlign(NextAlign(a))) == a
    ensures NextAlign(a) != a
  {
  }

  /**
   * Clicking a column's alignment three times brings it back to where it
   * started (an absent alignment comes back as left); only the columns with
   * that key change.
   */
  lemma AlignThreeClicks(columns: seq<ColumnConfig>, key: string)
    requires KeyIndex(columns, key) >= 0
    ensures var i := KeyIndex(columns, key);
      var c1 := AlignChange(columns, key);
      && c1.Some?
      && var c2 := AlignChange(c1.value, key);
      && c2.Some?
      && var c3 := AlignChange(c2.value, key);
      && c3.Some?
      && |c3.value| == |columns|
      && (forall j :: 0 <= j < |columns| && columns[j].key != key ==> c3.value[j] == columns[j])
      && (forall j :: 0 <= j < |columns| && columns[j].key == key ==>
            c3.value[j] == columns[j].(cellAlign := Some(EffectiveAlign(columns[i].cellAlign))))
  {
    var i := KeyIndex(columns, key);
    AlignOnce(columns, key);
    var r1 := AlignChange(columns, key).value;
    AlignOnce(r1, key);
    var r2 := AlignChange(r1, key).value;
    AlignOnce(r2, key);
    NextAlignCycle(EffectiveAlign(columns[i].cellAlign));
  }

  /** One click: the matching columns get the next alignment, the others stay, and the key keeps its index. */
  lemma AlignOnce(columns: seq<ColumnConfig>, key: string)
    requires KeyIndex(columns, key) >= 0
    ensures var i := KeyIndex(columns, key);
      var c := AlignChange(columns, key);
      && c.Some?
      && |c.value| == |columns|
      && KeyIndex(c.value, key) == i
      && (forall j :: 0 <= j < |columns| && columns[j].key != key ==> c.value[j] == columns[j])
      && (forall j :: 0 <= j < |columns| && columns[j].key == key ==>
            c.value[j] == columns[j].(cellAlign := Some(NextAlign(EffectiveAlign(columns[i].cellAlign)))))
  {
    KeyIndexKept(columns, AlignChange(columns, key).value, key);
  }

  /** Sequences with the same keys position by position find a key at the same index. */
  lemma {:induction false} KeyIndexKept(a: seq<ColumnConfig>, b: seq<ColumnConfig>, key: string)
    requires |a| == |b| && forall j :: 0 <= j < |a| ==> a[j].key == b[j].key
    ensures KeyIndex(a, key) == KeyIndex(b, key)
  {
    if |a| > 0 && a[0].key != key {
      KeyIndexKept(a[1..], b[1..], key);
    }
  }

  // ---------------------------------------------------------------- resize

  /** `column.width || 150`: the width a resize starts from (absent or 0 means 150). */
  function StartWidth(column: ColumnConfig): real {
    if column.width.Some? && column.width.value != 0.0 then column.width.value else 150.0
  }

  /** `handleResizeStart`: no resize for an unknown key, otherwise the first matching column's start width. */
  function ResizeStart(columns: seq<ColumnConfig>, key: string): Option<real> {
    var i := KeyIndex(columns, key);
    if i == -1 then None else Some(StartWidth(columns[i]))
  }

  /** `Math.max(50, start + diff)`. */
  function NewWidth(startWidth: real, diff: real): real {
    if startWidth + diff >= 50.0 then startWidth + diff else 50.0
  }

  /**
   * One mouse move: every column with the key gets the new width. The source
   * installs this handler only while a resize is under way (`!resizingColumn`
   * returns first, so an absent or empty key never resizes).
   */
  function Resize(columns: seq<ColumnConfig>, key: string, startWidth: real, diff: real): (r: seq<ColumnConfig>)
    ensures |r| == |columns|
    ensures forall j :: 0 <= j < |r| && columns[j].key != key ==> r[j] == columns[j]
    ensures forall j :: 0 <= j < |r| && columns[j].key == key ==>
      r[j].width.Some? && r[j].width.value >= 50.0 && r[j].(width := columns[j].width) == columns[j]
  {
    seq(|columns|, j requires 0 <= j < |columns| =>
      if columns[j].key == key then columns[j].(width := Some(NewWidth(startWidth, diff))) else columns[j])
  }

  /**
   * Resizing changes only the width of the columns with that key, to the
   * start width plus the mouse travel but never below 50.
   */
  lemma ResizeClamps(columns: seq<ColumnConfig>, key: string, startWidth: real, diff: real)
    ensures var r := Resize(columns, key, startWidth, diff);
      && |r| == |columns|
      && (forall j :: 0 <= j < |r| && columns[j].key != key ==> r[j] == columns[j])
      && (forall j :: 0 <= j < |r| && columns[j].key == key ==>
            && r[j].(width := columns[j].width) == columns[j]
            && r[j].width.Some? && r[j].width.value >= 50.0
            && r[j].width.value >= startWidth + diff
            && (startWidth + diff >= 50.0 ==> r[j].width.value == startWidth + diff))
  {
  }

  /** A resize starts from the column's width when it has a non-zero one, and from 150 otherwise. */
  lemma ResizeStartWidth(columns: seq<ColumnConfig>, key: string)
    ensures var i := KeyIndex(columns, key);
      && (ResizeStart(columns, key).None? <==> i == -1)
      && (i >= 0 && columns[i].width.Some? && columns[i].width.value != 0.0 ==>
            ResizeStart(columns, key) == Some(columns[i].width.value))
      && (i >= 0 && (columns[i].width.None? || columns[i].width == Some(0.0)) ==>
            ResizeStart(columns, key) == Some(150.0))
  {
  }
}
