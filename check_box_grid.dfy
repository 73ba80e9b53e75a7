/**
 * The CheckBoxGrid control as a class whose fields the property-changed
 * handlers update in place, as the control does. Each handler and each of
 * its loops is proved to leave the object in the state the matching
 * function of GridSpec describes; the properties of those functions are in
 * GridLemmas and GridRuns.
 */
module CheckBoxGridControl {
  import opened Layout
  import opened GridSpec
  import opened GridLoops
  import opened GridLemmas
  import opened CheckedEventArgs

  /** The label group with every label set to visibility v, one label at a
      time, as the handlers' foreach loops do. */
  method SetGroupVisibility(labels: seq<TextBlock>, v: Visibility) returns (r: seq<TextBlock>)
    ensures r == WithVisibility(labels, v)
    ensures |r| == |labels| && forall k :: 0 <= k < |r| ==> r[k].visibility == v
  {
    r := labels;
    var i := 0;
    while i < |r|
      invariant 0 <= i <= |r| == |labels|
      invariant forall k :: 0 <= k < i ==> r[k] == labels[k].(visibility := v)
      invariant forall k :: i <= k < |r| ==> r[k] == labels[k]
    {
      r := r[i := r[i].(visibility := v)];
      i := i + 1;
    }
  }

  /** Identity of a handler attached to the control's Checked event. */
  type HandlerId = nat

  /** The invocation list after `Checked -= h`: the last occurrence of h
      leaves it, and a handler that was never added changes nothing. */
  function WithoutHandler(list: seq<HandlerId>, h: HandlerId): (r: seq<HandlerId>)
    ensures h !in list ==> r == list
    ensures h in list ==> |r| == |list| - 1 && multiset(r) == multiset(list) - multiset{h}
    decreases |list|
  {
    if list == [] then []
    else
      var init, last := list[..|list| - 1], list[|list| - 1];
      assert list == init + [last];
      if last == h then init
      else
        WithoutHandler(init, h) + [last]
  }

  /** Removing a handler right after adding it restores the invocation list. */
  lemma AddThenRemove(list: seq<HandlerId>, h: HandlerId)
    ensures WithoutHandler(list + [h], h) == list
  {
    assert (list + [h])[..|list|] == list;
  }

  /** The invocation list of the control's field-like Checked event, as the
      sequence of the handlers added to it. */
  class CheckedEvent {
    var handlers: seq<HandlerId>

    constructor ()
      ensures handlers == []
    {
      handlers := [];
    }

    /** `Checked += h`. */
    method Add(h: HandlerId)
      modifies this
      ensures handlers == old(handlers) + [h]
    {
      handlers := handlers + [h];
    }

    /** `Checked -= h`, whether or not h was added. */
    method Remove(h: HandlerId)
      modifies this
      ensures handlers == WithoutHandler(old(handlers), h)
    {
      handlers := WithoutHandler(handlers, h);
    }
  }

  class CheckBoxGrid {
    var columns: int
    var rows: int
    var showLabels: bool
    var spacing: Thickness
    var states: seq<seq<bool>>
    var checkBoxes: seq<seq<CheckBox>>
    var columnLabels: seq<TextBlock>
    var rowLabels: seq<TextBlock>
    // The host grid (the control's Container): its column and row
    // definitions and its children.
    var columnDefs: seq<GridLength>
    var rowDefs: seq<GridLength>
    var children: multiset<Handle>
    var nextHandle: Handle
    /** The handlers of the control's Checked event. */
    const checked: CheckedEvent

    function Snapshot(): GridState
      reads this
    {
      GridState(columns, rows, showLabels, spacing, states, checkBoxes, columnLabels, rowLabels,
                columnDefs, rowDefs, children, nextHandle)
    }

    constructor ()
      ensures Snapshot() == Initial && fresh(checked) && checked.handlers == []
      ensures WellFormed(Snapshot())
    {
      columns, rows, showLabels, spacing := 0, 0, true, DefaultSpacing;
      states, checkBoxes, columnLabels, rowLabels := [], [], [], [];
      columnDefs, rowDefs, children, nextHandle := [Auto], [Auto], multiset{}, 0;
      checked := new CheckedEvent();
    }

    // -------------------------------------------------------------------
    // Columns

    /** One pass of the first loop of OnColumnsChanged: an empty state
        column and box column, an auto-sized column definition and the label
        "i" at grid (i, 0). */
    method AppendColumn(i: int)
      modifies this
      ensures Snapshot() == GridSpec.AppendColumn(old(Snapshot()), i)
    {
      checkBoxes := checkBoxes + [[]];
      states := states + [[]];
      columnDefs := columnDefs + [Auto];
      var header := TextBlock(nextHandle, i, i, 0, Visible);
      nextHandle := nextHandle + 1;
      columnLabels := columnLabels + [header];
      AdoptAdds(children, header.handle);
      children := children + multiset{header.handle};
    }

    /** The first loop of OnColumnsChanged. */
    method AppendColumns(start: nat, end: nat)
      requires start <= end
      modifies this
      ensures Snapshot() == GridSpec.AppendColumns(old(Snapshot()), start, end)
    {
      ghost var s0 := Snapshot();
      var i := start + 1;
      while i <= end
        invariant start + 1 <= i <= end + 1
        invariant Snapshot() == AppendColumnsLoop(s0, start, i - 1)
      {
        AppendColumn(i);
        i := i + 1;
      }
      assert i - 1 == end;
      AppendColumnsLoopBlock(s0, start, end);
    }

    /** The body of both grow loops: a false state and a new box for cell
        (i - 1, j - 1), placed at grid (i, j) with the current spacing and
        bound to States[i - 1][j - 1]. Only the rows-grow loop subscribes the
        box to Checked/Unchecked. */
    method CreateBox(i: int, j: int, subscribed: bool)
      requires 1 <= i <= |states| == |checkBoxes|
      modifies this
      ensures Snapshot() == AddBox(old(Snapshot()), i - 1, j - 1, subscribed)
    {
      states := states[i - 1 := states[i - 1] + [false]];
      var box := CheckBox(nextHandle, i, j, spacing, Some(Cell(i - 1, j - 1)), subscribed);
      nextHandle := nextHandle + 1;
      checkBoxes := checkBoxes[i - 1 := checkBoxes[i - 1] + [box]];
      AdoptAdds(children, box.handle);
      children := children + multiset{box.handle};
    }

    /** The inner loop of both grow loops: the boxes of rows lo..hi-1 of
        column i - 1, in order. */
    method FillColumn(i: int, lo: nat, hi: nat, subscribed: bool)
      requires 1 <= i <= |states| == |checkBoxes| && lo <= hi
      modifies this
      ensures Snapshot() == GridSpec.FillColumn(old(Snapshot()), i - 1, lo, hi, subscribed)
    {
      ghost var t := Snapshot();
      var j := lo + 1;
      while j <= hi
        invariant lo + 1 <= j <= hi + 1
        invariant Snapshot() == GridSpec.FillColumn(t, i - 1, lo, j - 1, subscribed)
      {
        CreateBox(i, j, subscribed);
        j := j + 1;
      }
      assert j - 1 == hi;
    }

    /** The grow loop of OnColumnsChanged (when there are rows): column by
        column, a false state and an unsubscribed box for every row; growing
        from no columns shows the row labels. */
    method AddColumnBoxes(start: nat, end: nat)
      requires start <= end <= |states| == |checkBoxes| && 0 <= rows
      modifies this
      ensures Snapshot() == GridSpec.AddColumnBoxes(old(Snapshot()), start, end)
    {
      ghost var s0 := Snapshot();
      var i := start + 1;
      while i <= end
        invariant start + 1 <= i <= end + 1
        invariant Snapshot() == FillCells(s0, start, i - 1, 0, s0.rows, false)
      {
        FillColumn(i, 0, rows, false);
        i := i + 1;
      }
      assert i - 1 == end;
      if start == 0 {
        rowLabels := SetGroupVisibility(rowLabels, Visible);
      }
    }

    /** A box or label leaving the grid's children. */
    method Unparent(h: Handle)
      modifies this
      ensures Snapshot() == GridSpec.Unparent(old(Snapshot()), h)
    {
      children := children - multiset{h};
    }

    /** The inner column-shrink loop: the bindings of boxes rows-1 down to 0
        of column i are cleared and the boxes leave the grid. */
    method RemoveColumnBoxes(i: nat)
      requires i < |checkBoxes| && 0 <= rows <= |checkBoxes[i]|
      modifies this
      ensures Snapshot() == DropColumnBoxes(old(Snapshot()), i, 0)
    {
      ghost var s0 := Snapshot();
      var j := rows - 1;
      while j >= 0
        invariant -1 <= j < s0.rows
        invariant Snapshot() == DropColumnBoxesLoop(s0, i, j + 1)
      {
        var box := checkBoxes[i][j];
        Unparent(box.handle);
        j := j - 1;
      }
      assert j + 1 == 0;
      DropColumnBoxesLoopBlock(s0, i, 0);
    }

    /** One pass of the outer column-shrink loop, for 0-based column i. */
    method RemoveColumn(i: nat)
      requires i < |states| == |checkBoxes| == |columnLabels| && i < |columnDefs|
      requires 0 <= rows <= |checkBoxes[i]|
      modifies this
      ensures Snapshot() == DropColumn(old(Snapshot()), i)
    {
      ghost var s0 := Snapshot();
      RemoveColumnBoxes(i);
      assert s0.checkBoxes[i][0..s0.rows] == s0.checkBoxes[i][..s0.rows];
      checkBoxes := checkBoxes[..i] + checkBoxes[i + 1..];
      states := states[..i] + states[i + 1..];
      columnDefs := columnDefs[..i] + columnDefs[i + 1..];
      children := children - multiset{columnLabels[i].handle};
      columnLabels := columnLabels[..i] + columnLabels[i + 1..];
    }

    /** The shrink branch of OnColumnsChanged (when there are rows): columns
        start-1 down to end, then hiding the row labels when no column is
        left. */
    method RemoveColumns(start: nat, end: nat)
      requires end <= start <= |states|
      requires |checkBoxes| == |states| == |columnLabels| && |columnDefs| == |states| + 1
      requires 0 <= rows && forall c :: end <= c < start ==> rows <= |checkBoxes[c]|
      modifies this
      ensures Snapshot() == GridSpec.RemoveColumns(old(Snapshot()), start, end)
    {
      DropColumns(start, end);
      if end == 0 {
        rowLabels := SetGroupVisibility(rowLabels, Hidden);
      }
    }

    /** The outer column-shrink loop: columns start-1 down to end. */
    method DropColumns(start: nat, end: nat)
      requires end <= start <= |states|
      requires |checkBoxes| == |states| == |columnLabels| && |columnDefs| == |states| + 1
      requires 0 <= rows && forall c :: end <= c < start ==> rows <= |checkBoxes[c]|
      modifies this
      ensures Snapshot() == GridSpec.DropColumns(old(Snapshot()), start, end)
    {
      ghost var s0 := Snapshot();
      var i: int := start - 1;
      while i > end - 1
        invariant end - 1 <= i < start
        invariant Snapshot() == DropColumnsLoop(s0, start, i + 1)
      {
        RemoveColumn(i);
        i := i - 1;
      }
      assert i + 1 == end;
      DropColumnsLoopBlock(s0, start, end);
    }

    /** OnColumnsChanged, from the old value `columns` to `end`: the first
        loop when growing, then nothing more when there are no rows or no
        change, else the shrink or grow branch. */
    method OnColumnsChanged(end: nat)
      requires WellFormed(Snapshot())
      modifies this
      ensures Snapshot() == ColumnsChanged(old(Snapshot()), end)
      ensures WellFormed(Snapshot())
    {
      ghost var s := Snapshot();
      ColumnsChangedWellFormed(s, end);
      var start := columns;
      columns := end;
      if start < end {
        AppendColumns(start, end);
      }
      if rows == 0 {
        return;
      }
      if start == end {
        return;
      }
      if start > end {
        RemoveColumns(start, end);
      } else {
        AddColumnBoxes(start, end);
      }
    }

    /** The Columns setter: a negative value is ignored. */
    method SetColumns(value: int)
      requires WellFormed(Snapshot())
      modifies this
      ensures Snapshot() == GridSpec.SetColumns(old(Snapshot()), value)
      ensures WellFormed(Snapshot())
    {
      if value < 0 {
        return;
      }
      OnColumnsChanged(value);
    }

    // -------------------------------------------------------------------
    // Rows

    /** One pass of the first loop of OnRowsChanged: an auto-sized row
        definition and the label "i" at grid (0, i). */
    method AppendRow(i: int)
      modifies this
      ensures Snapshot() == GridSpec.AppendRow(old(Snapshot()), i)
    {
      rowDefs := rowDefs + [Auto];
      var header := TextBlock(nextHandle, i, 0, i, Visible);
      nextHandle := nextHandle + 1;
      rowLabels := rowLabels + [header];
      AdoptAdds(children, header.handle);
      children := children + multiset{header.handle};
    }

    /** The first loop of OnRowsChanged. */
    method AppendRows(start: nat, end: nat)
      requires start <= end
      modifies this
      ensures Snapshot() == GridSpec.AppendRows(old(Snapshot()), start, end)
    {
      ghost var s0 := Snapshot();
      var i := start + 1;
      while i <= end
        invariant start + 1 <= i <= end + 1
        invariant Snapshot() == AppendRowsLoop(s0, start, i - 1)
      {
        AppendRow(i);
        i := i + 1;
      }
      assert i - 1 == end;
      AppendRowsLoopBlock(s0, start, end);
    }

    /** The grow branch of OnRowsChanged (when there are columns): column by
        column, a false state and a box subscribed to Checked/Unchecked for
        every new row; growing from no rows shows the column labels. */
    method AddRowBoxes(start: nat, end: nat)
      requires start <= end && 0 <= columns <= |states| == |checkBoxes|
      modifies this
      ensures Snapshot() == GridSpec.AddRowBoxes(old(Snapshot()), start, end)
    {
      ghost var s0 := Snapshot();
      var i := 1;
      while i <= columns
        invariant 1 <= i <= s0.columns + 1 && columns == s0.columns
        invariant Snapshot() == FillCells(s0, 0, i - 1, start, end, true)
      {
        FillColumn(i, start, end, true);
        i := i + 1;
      }
      assert i - 1 == s0.columns;
      if start == 0 {
        columnLabels := SetGroupVisibility(columnLabels, Visible);
      }
    }

    /** One pass of the inner row-shrink loop: the box at row j of column i
        has its binding cleared and leaves the grid and the column, and the
        state at row j goes too. */
    method RemoveRowCell(i: nat, j: nat)
      requires i < |states| == |checkBoxes| && j < |states[i]| && j < |checkBoxes[i]|
      modifies this
      ensures Snapshot() == GridSpec.RemoveRowCell(old(Snapshot()), i, j)
    {
      var box := checkBoxes[i][j];
      children := children - multiset{box.handle};
      checkBoxes := checkBoxes[i := checkBoxes[i][..j] + checkBoxes[i][j + 1..]];
      states := states[i := states[i][..j] + states[i][j + 1..]];
    }

    /** The inner row-shrink loop for column i: rows start-1 down to end. */
    method RemoveRowBoxes(i: nat, start: nat, end: nat)
      requires i < |states| == |checkBoxes| && end <= start
      requires start <= |states[i]| && start <= |checkBoxes[i]|
      modifies this
      ensures Snapshot() == DropRowColumnLoop(old(Snapshot()), i, end, start)
    {
      ghost var s0 := Snapshot();
      var j: int := start - 1;
      while j > end - 1
        invariant end - 1 <= j < start
        invariant Snapshot() == DropRowColumnLoop(s0, i, j + 1, start)
      {
        RemoveRowCell(i, j);
        j := j - 1;
      }
      assert j + 1 == end;
    }

    /** The outer row-shrink loop: columns columns-1 down to 0. */
    method RemoveRowCells(start: nat, end: nat)
      requires 0 <= columns <= |states| == |checkBoxes| && end <= start
      requires forall c :: 0 <= c < columns ==> start <= |states[c]| && start <= |checkBoxes[c]|
      modifies this
      ensures Snapshot() == DropRowCells(old(Snapshot()), 0, old(columns), end, start)
    {
      ghost var s0 := Snapshot();
      var i := columns - 1;
      while i >= 0
        invariant -1 <= i < s0.columns
        invariant Snapshot() == DropRowCellsLoop(s0, i + 1, s0.columns, end, start)
      {
        DropRowCellsLoopNext(s0, i, s0.columns, end, start);
        RemoveRowBoxes(i, start, end);
        i := i - 1;
      }
      assert i + 1 == 0;
      DropRowCellsLoopBlock(s0, 0, s0.columns, end, start);
    }

    /** One pass of the row-label loop, for row number i. */
    method RemoveRowLabel(i: nat)
      requires 1 <= i <= |rowLabels| && i < |rowDefs|
      modifies this
      ensures Snapshot() == DropRowLabel(old(Snapshot()), i)
    {
      children := children - multiset{rowLabels[i - 1].handle};
      rowLabels := rowLabels[..i - 1] + rowLabels[i..];
      rowDefs := rowDefs[..i] + rowDefs[i + 1..];
    }

    /** The row-label loop of the rows shrink: for i = start down to end + 1,
        label i leaves the grid and RowLabels (at 0-based index i - 1) and
        RowDefinitions loses its entry at index i. */
    method RemoveRowLabels(start: nat, end: nat)
      requires end <= start <= |rowLabels| && |rowDefs| == |rowLabels| + 1
      modifies this
      ensures Snapshot() == DropRowLabels(old(Snapshot()), start, end)
    {
      ghost var s0 := Snapshot();
      var i := start;
      while i > end
        invariant end <= i <= start
        invariant Snapshot() == DropRowLabelsLoop(s0, start, i)
      {
        RemoveRowLabel(i);
        i := i - 1;
      }
      DropRowLabelsLoopBlock(s0, start, end);
    }

    /** The shrink branch of OnRowsChanged (when there are columns). */
    method RemoveRows(start: nat, end: nat)
      requires end <= start <= |rowLabels| && |rowDefs| == |rowLabels| + 1
      requires 0 <= columns <= |states| == |checkBoxes|
      requires forall c :: 0 <= c < columns ==> start <= |states[c]| == |checkBoxes[c]|
      modifies this
      ensures Snapshot() == GridSpec.RemoveRows(old(Snapshot()), start, end)
    {
      RemoveRowCells(start, end);
      RemoveRowLabels(start, end);
      if end == 0 {
        columnLabels := SetGroupVisibility(columnLabels, Hidden);
      }
    }

    /** OnRowsChanged, from the old value `rows` to `end`: the first loop
        when growing, then nothing more when there are no columns or no
        change, else the shrink or grow branch. */
    method OnRowsChanged(end: nat)
      requires WellFormed(Snapshot())
      modifies this
      ensures Snapshot() == RowsChanged(old(Snapshot()), end)
      ensures WellFormed(Snapshot())
    {
      ghost var s := Snapshot();
      RowsChangedWellFormed(s, end);
      var start := rows;
      rows := end;
      if start < end {
        AppendRows(start, end);
      }
      if columns == 0 {
        return;
      }
      if start == end {
        return;
      }
      if start > end {
        RemoveRows(start, end);
      } else {
        AddRowBoxes(start, end);
      }
    }

    /** The Rows setter: a negative value is ignored. */
    method SetRows(value: int)
      requires WellFormed(Snapshot())
      modifies this
      ensures Snapshot() == GridSpec.SetRows(old(Snapshot()), value)
      ensures WellFormed(Snapshot())
    {
      if value < 0 {
        return;
      }
      OnRowsChanged(value);
    }

    // -------------------------------------------------------------------
    // Labels, spacing, the Checked event

    /** OnShowLabelsChanged: the header column and header row become
        auto-sized when the labels are shown and zero pixels wide and high
        when they are not. */
    method OnShowLabelsChanged(v: bool)
      requires 1 <= |columnDefs| && 1 <= |rowDefs|
      modifies this
      ensures Snapshot() == ShowLabelsChanged(old(Snapshot()), v)
      ensures WellFormed(old(Snapshot())) ==> WellFormed(Snapshot())
    {
      showLabels := v;
      if showLabels {
        columnDefs := columnDefs[0 := Auto];
        rowDefs := rowDefs[0 := Auto];
      } else {
        columnDefs := columnDefs[0 := ZeroPixels];
        rowDefs := rowDefs[0 := ZeroPixels];
      }
    }

    /** OnSpacingChanged: the new spacing is stored and then given to every
        box, column by column. */
    method OnSpacingChanged(t: Thickness)
      modifies this
      ensures Snapshot() == SpacingChanged(old(Snapshot()), t)
      ensures WellFormed(old(Snapshot())) ==> WellFormed(Snapshot())
    {
      ghost var s0 := Snapshot();
      ghost var target := WithMargin(s0.checkBoxes, t);
      spacing := t;
      var c := 0;
      while c < |checkBoxes|
        invariant 0 <= c <= |checkBoxes| == |s0.checkBoxes|
        invariant forall k :: 0 <= k < c ==> checkBoxes[k] == target[k]
        invariant forall k :: c <= k < |checkBoxes| ==> checkBoxes[k] == s0.checkBoxes[k]
        invariant Snapshot() == s0.(spacing := t, checkBoxes := checkBoxes)
      {
        var column := SetMargins(checkBoxes[c], t);
        assert column == target[c];
        checkBoxes := checkBoxes[c := column];
        c := c + 1;
      }
      assert checkBoxes == target;
    }

    /** OnCheckBoxChecked, for a sender that may not be a box: when it is a
        box and Checked has a handler, the event is raised with the box's
        0-based cell (its grid column and row less one) and its IsChecked
        value, null counting as false. */
    method OnCheckBoxChecked(sender: Option<CheckBox>, isChecked: Option<bool>) returns (raised: CheckBoxGridCheckedEventArgs?)
      ensures raised != null <==> sender.Some? && checked.handlers != []
      ensures raised != null ==>
        && fresh(raised)
        && Cell(raised.column, raised.row) == EventCell(sender.value)
        && raised.isChecked == OrFalse(isChecked)
    {
      raised := null;
      if sender.None? {
        return;
      }
      var box := sender.value;
      var column := box.gridColumn - 1;
      var row := box.gridRow - 1;
      if checked.handlers != [] {
        raised := new CheckBoxGridCheckedEventArgs(column, row, OrFalse(isChecked));
      }
    }
  }

  /** The margins of one column of boxes set to m, one box at a time. */
  method SetMargins(boxes: seq<CheckBox>, m: Thickness) returns (r: seq<CheckBox>)
    ensures r == WithMargin([boxes], m)[0]
    ensures |r| == |boxes| && forall k :: 0 <= k < |r| ==> r[k] == boxes[k].(margin := m)
  {
    r := boxes;
    var k := 0;
    while k < |r|
      invariant 0 <= k <= |r| == |boxes|
      invariant forall j :: 0 <= j < k ==> r[j] == boxes[j].(margin := m)
      invariant forall j :: k <= j < |r| ==> r[j] == boxes[j]
    {
      r := r[k := r[k].(margin := m)];
      k := k + 1;
    }
  }
}
