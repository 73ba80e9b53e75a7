/**
 * What each handler does to the parts of the control a user sees, proved
 * about the value model for a control in its intended shape: the setters'
 * guard, the boxes and labels a resize adds or removes, the header sizes,
 * the spacing, and the cell a Checked event reports.
 */
module GridProperties {
  import opened Layout
  import opened GridSpec
  import opened GridLemmas
  import opened GridChildren

  // ---------------------------------------------------------------------
  // The setters

  /** A negative Columns or Rows value changes nothing at all. */
  lemma NegativeSetIgnored(s: GridState, value: int)
    requires WellFormed(s) && value < 0
    ensures SetColumns(s, value) == s && SetRows(s, value) == s
  {
  }

  // ---------------------------------------------------------------------
  // Growing the columns

  /** Growing the columns appends one entry per new column to States,
      CheckBoxes and ColumnLabels, whether or not there are rows, and leaves
      the old columns as they were. */
  lemma ColumnsGrowKeepsColumns(s: GridState, end: nat)
    requires Shaped(s) && s.columns < end
    ensures var r := ColumnsChanged(s, end);
      && |r.states| == |r.checkBoxes| == |r.columnLabels| == end
      && forall c :: 0 <= c < s.columns ==>
           r.states[c] == s.states[c] && r.checkBoxes[c] == s.checkBoxes[c] && r.columnLabels[c] == s.columnLabels[c]
  {
    var s1 := s.(columns := end);
    AppendColumnsFacts(s1, s.columns, end);
    var grown := AppendColumns(s1, s.columns, end);
    forall c | 0 <= c < s.columns ensures grown.columnLabels[c] == s.columnLabels[c] {
      assert grown.columnLabels[c] == grown.columnLabels[..s.columns][c];
    }
    if s.rows > 0 {
      FillCellsFrame(grown, s.columns, end, 0, s.rows, false);
      assert ColumnsChanged(s, end) == AddColumnBoxes(grown, s.columns, end);
      var r := AddColumnBoxes(grown, s.columns, end);
      forall c | 0 <= c < s.columns ensures r.states[c] == s.states[c] && r.checkBoxes[c] == s.checkBoxes[c] {
        FillCellsOthers(grown, s.columns, end, 0, s.rows, false, c);
      }
    } else {
      assert ColumnsChanged(s, end) == grown;
    }
  }

  /** Growing the columns (with rows present) gives each cell of a new
      column a false state and a box at that cell, with the current spacing,
      whose Checked and Unchecked events the control does not handle. */
  lemma ColumnsGrowNewCells(s: GridState, end: nat)
    requires Shaped(s) && s.columns < end && s.rows > 0
    ensures var r := ColumnsChanged(s, end);
      && |r.states| == |r.checkBoxes| == end
      && (forall c :: s.columns <= c < end ==> |r.states[c]| == |r.checkBoxes[c]| == s.rows)
      && forall c, k :: s.columns <= c < end && 0 <= k < s.rows ==>
           var b := r.checkBoxes[c][k];
           !r.states[c][k] && PlacedAt(b, c, k) && b.margin == s.spacing && !b.subscribed
  {
    var s1 := s.(columns := end);
    AppendColumnsFacts(s1, s.columns, end);
    var grown := AppendColumns(s1, s.columns, end);
    FillCellsSizes(grown, s.columns, end, 0, s.rows, false);
    assert ColumnsChanged(s, end) == AddColumnBoxes(grown, s.columns, end);
    forall c | s.columns <= c < end {
      ColumnsGrowColumn(s, end, c);
    }
  }

  /** ColumnsGrowNewCells for one new column c. */
  lemma ColumnsGrowColumn(s: GridState, end: nat, c: nat)
    requires Shaped(s) && s.columns <= c < end
    ensures var r := AddColumnBoxes(AppendColumns(s.(columns := end), s.columns, end), s.columns, end);
      && |r.states| == |r.checkBoxes| == end
      && |r.states[c]| == |r.checkBoxes[c]| == s.rows
      && forall k :: 0 <= k < s.rows ==>
           var b := r.checkBoxes[c][k];
           !r.states[c][k] && PlacedAt(b, c, k) && b.margin == s.spacing && !b.subscribed
  {
    var s1 := s.(columns := end);
    AppendColumnsFacts(s1, s.columns, end);
    var grown := AppendColumns(s1, s.columns, end);
    FillCellsColumn(grown, s.columns, end, 0, s.rows, false, c);
    FillCellsFrame(grown, s.columns, end, 0, s.rows, false);
  }

  /** Growing the columns adds a visible label per new column, whether or
      not there are rows. */
  lemma ColumnsGrowNewLabels(s: GridState, end: nat)
    requires Shaped(s) && s.columns < end
    ensures var r := ColumnsChanged(s, end);
      && |r.columnLabels| == end
      && forall c :: s.columns <= c < end ==> ColumnLabelOf(r.columnLabels[c], c) && r.columnLabels[c].visibility == Visible
  {
    var s1 := s.(columns := end);
    AppendColumnsFacts(s1, s.columns, end);
    var grown := AppendColumns(s1, s.columns, end);
    if s.rows > 0 {
      FillCellsFrame(grown, s.columns, end, 0, s.rows, false);
      assert ColumnsChanged(s, end) == AddColumnBoxes(grown, s.columns, end);
    } else {
      assert ColumnsChanged(s, end) == grown;
    }
    forall c | s.columns <= c < end ensures grown.columnLabels[c].visibility == Visible {
      assert grown.columnLabels[c] == NewColumnLabels(s.nextHandle, s.columns, end - s.columns)[c - s.columns];
    }
  }

  // ---------------------------------------------------------------------
  // Growing the rows

  /** Growing the rows (with columns present) keeps the old cells of every
      column. */
  lemma RowsGrowKeepsCells(s: GridState, end: nat)
    requires Shaped(s) && s.rows < end && s.columns > 0
    ensures var r := RowsChanged(s, end);
      && |r.states| == |r.checkBoxes| == s.columns
      && (forall c :: 0 <= c < s.columns ==> |r.states[c]| == |r.checkBoxes[c]| == end)
      && forall c :: 0 <= c < s.columns ==>
           r.states[c][..s.rows] == s.states[c] && r.checkBoxes[c][..s.rows] == s.checkBoxes[c]
  {
    var s1 := s.(rows := end);
    AppendRowsFacts(s1, s.rows, end);
    var grown := AppendRows(s1, s.rows, end);
    FillCellsSizes(grown, 0, s.columns, s.rows, end, true);
    assert RowsChanged(s, end) == AddRowBoxes(grown, s.rows, end);
    var r := AddRowBoxes(grown, s.rows, end);
    forall c | 0 <= c < s.columns ensures r.states[c][..s.rows] == s.states[c] && r.checkBoxes[c][..s.rows] == s.checkBoxes[c] {
      FillCellsColumn(grown, 0, s.columns, s.rows, end, true, c);
      assert r.states[c] == s.states[c] + Falses(end - s.rows);
    }
  }

  /** Growing the rows (with columns present) gives each new cell a false
      state and a box at that cell, with the current spacing, whose Checked
      and Unchecked events the control handles. */
  lemma RowsGrowNewCells(s: GridState, end: nat)
    requires Shaped(s) && s.rows < end && s.columns > 0
    ensures var r := RowsChanged(s, end);
      && |r.states| == |r.checkBoxes| == s.columns
      && (forall c :: 0 <= c < s.columns ==> |r.states[c]| == |r.checkBoxes[c]| == end)
      && forall c, k :: 0 <= c < s.columns && s.rows <= k < end ==>
           var b := r.checkBoxes[c][k];
           !r.states[c][k] && PlacedAt(b, c, k) && b.margin == s.spacing && b.subscribed
  {
    var s1 := s.(rows := end);
    AppendRowsFacts(s1, s.rows, end);
    var grown := AppendRows(s1, s.rows, end);
    FillCellsSizes(grown, 0, s.columns, s.rows, end, true);
    assert RowsChanged(s, end) == AddRowBoxes(grown, s.rows, end);
    forall c | 0 <= c < s.columns {
      RowsGrowColumn(s, end, c);
    }
  }

  /** RowsGrowNewCells for one column c. */
  lemma RowsGrowColumn(s: GridState, end: nat, c: nat)
    requires Shaped(s) && s.rows < end && c < s.columns
    ensures var r := AddRowBoxes(AppendRows(s.(rows := end), s.rows, end), s.rows, end);
      && |r.states| == |r.checkBoxes| == s.columns
      && |r.states[c]| == |r.checkBoxes[c]| == end
      && forall k :: s.rows <= k < end ==>
           var b := r.checkBoxes[c][k];
           !r.states[c][k] && PlacedAt(b, c, k) && b.margin == s.spacing && b.subscribed
  {
    var s1 := s.(rows := end);
    AppendRowsFacts(s1, s.rows, end);
    var grown := AppendRows(s1, s.rows, end);
    FillCellsColumn(grown, 0, s.columns, s.rows, end, true, c);
    FillCellsFrame(grown, 0, s.columns, s.rows, end, true);
  }

  /** Growing the rows adds a visible label per new row, whether or not
      there are columns. */
  lemma RowsGrowNewLabels(s: GridState, end: nat)
    requires Shaped(s) && s.rows < end
    ensures var r := RowsChanged(s, end);
      && |r.rowLabels| == end
      && forall k :: s.rows <= k < end ==> RowLabelOf(r.rowLabels[k], k) && r.rowLabels[k].visibility == Visible
  {
    var s1 := s.(rows := end);
    AppendRowsFacts(s1, s.rows, end);
    var grown := AppendRows(s1, s.rows, end);
    if s.columns > 0 {
      FillCellsFrame(grown, 0, s.columns, s.rows, end, true);
      assert RowsChanged(s, end) == AddRowBoxes(grown, s.rows, end);
    } else {
      assert RowsChanged(s, end) == grown;
    }
    forall k | s.rows <= k < end ensures grown.rowLabels[k].visibility == Visible {
      assert grown.rowLabels[k] == NewRowLabels(s.nextHandle, s.rows, end - s.rows)[k - s.rows];
    }
  }

  // ---------------------------------------------------------------------
  // Shrinking

  /** Cutting the tail of a sequence keeps its head. */
  lemma CutTail<T>(xs: seq<T>, lo: nat)
    requires lo <= |xs|
    ensures Cut(xs, lo, |xs|) == xs[..lo]
  {
    assert xs[|xs|..] == [];
  }

  /** Shrinking the columns (with rows present) keeps the first `end`
      columns of States, CheckBoxes and ColumnLabels. ColumnDefinitions
      loses its entries at the 0-based indices end..start-1, so it keeps its
      first `end` entries and its last one: shrinking to 0 drops the header
      definition and keeps the last column's. Every box and the label of
      each dropped column leave the grid's children. */
  lemma ColumnsShrinkRemoves(s: GridState, end: nat)
    requires Shaped(s) && end < s.columns && s.rows > 0
    ensures var r := ColumnsChanged(s, end);
      && r.states == s.states[..end] && r.checkBoxes == s.checkBoxes[..end]
      && r.columnLabels == s.columnLabels[..end]
      && r.columnDefs == s.columnDefs[..end] + [s.columnDefs[s.columns]]
      && r.rowDefs == s.rowDefs
      && r.children == s.children - (CellHandles(s.checkBoxes[end..], 0) + multiset(LabelHandles(s.columnLabels[end..])))
  {
    var s1 := s.(columns := end);
    assert ColumnsChanged(s, end) == RemoveColumns(s1, s.columns, end);
    CutTail(s.states, end);
    CutTail(s.checkBoxes, end);
    CutTail(s.columnLabels, end);
    assert s.columnDefs[s.columns..] == [s.columnDefs[s.columns]];
    ColumnsShrinkChildren(s, end);
  }

  /** Shrinking the rows (with columns present) keeps the first `end`
      states and boxes of every column and the first `end` row labels.
      RowDefinitions loses its entries at the 1-based indices end+1..start,
      so it keeps the header definition and the first `end` rows'. The
      boxes at the dropped rows of every column and the dropped rows' labels
      leave the grid's children. */
  lemma RowsShrinkRemoves(s: GridState, end: nat)
    requires Shaped(s) && end < s.rows && s.columns > 0
    ensures var r := RowsChanged(s, end);
      && |r.states| == |r.checkBoxes| == s.columns
      && (forall c :: 0 <= c < s.columns ==> r.states[c] == s.states[c][..end] && r.checkBoxes[c] == s.checkBoxes[c][..end])
      && r.rowLabels == s.rowLabels[..end]
      && r.rowDefs == s.rowDefs[..end + 1]
      && r.columnDefs == s.columnDefs
      && r.children == s.children - (CellHandles(s.checkBoxes, end) + multiset(LabelHandles(s.rowLabels[end..])))
  {
    var s1 := s.(rows := end);
    assert RowsChanged(s, end) == RemoveRows(s1, s.rows, end);
    RemoveRowsFacts(s1, s.rows, end);
    forall c | 0 <= c < s.columns
      ensures Cut(s.states[c], end, s.rows) == s.states[c][..end]
      ensures Cut(s.checkBoxes[c], end, s.rows) == s.checkBoxes[c][..end]
    {
      CutTail(s.states[c], end);
      CutTail(s.checkBoxes[c], end);
    }
    CutTail(s.rowLabels, end);
    CutTail(s.rowDefs, end + 1);
    RowsShrinkChildren(s, end);
  }

  /** Shrinking one dimension while the other is 0 only records the new
      count: the early return skips every collection. */
  lemma ShrinkAgainstEmptyOnlyCounts(s: GridState, end: nat)
    requires WellFormed(s)
    ensures end < s.columns && s.rows == 0 ==> ColumnsChanged(s, end) == s.(columns := end)
    ensures end < s.rows && s.columns == 0 ==> RowsChanged(s, end) == s.(rows := end)
  {
  }

  // ---------------------------------------------------------------------
  // Showing and hiding the other dimension's labels

  /** The row labels are hidden when the columns shrink to 0 and shown when
      they grow from 0, provided there are rows; any other column change
      leaves their visibility alone. */
  lemma ColumnsChangedRowLabels(s: GridState, end: nat)
    requires Shaped(s) && s.rows > 0 && end != s.columns
    ensures var r := ColumnsChanged(s, end);
      && |r.rowLabels| == s.rows
      && forall k :: 0 <= k < s.rows ==>
           r.rowLabels[k].visibility ==
             (if end == 0 then Hidden else if s.columns == 0 then Visible else s.rowLabels[k].visibility)
  {
    var start := s.columns;
    var s1 := s.(columns := end);
    if start < end {
      AppendColumnsFacts(s1, start, end);
      var grown := AppendColumns(s1, start, end);
      FillCellsFrame(grown, start, end, 0, s.rows, false);
      assert ColumnsChanged(s, end) == AddColumnBoxes(grown, start, end);
    } else {
      assert ColumnsChanged(s, end) == RemoveColumns(s1, start, end);
    }
  }

  /** The column labels are hidden when the rows shrink to 0 and shown when
      they grow from 0, provided there are columns; any other row change
      leaves their visibility alone. */
  lemma RowsChangedColumnLabels(s: GridState, end: nat)
    requires Shaped(s) && s.columns > 0 && end != s.rows
    ensures var r := RowsChanged(s, end);
      && |r.columnLabels| == s.columns
      && forall c :: 0 <= c < s.columns ==>
           r.columnLabels[c].visibility ==
             (if end == 0 then Hidden else if s.rows == 0 then Visible else s.columnLabels[c].visibility)
  {
    var start := s.rows;
    var s1 := s.(rows := end);
    if start < end {
      AppendRowsFacts(s1, start, end);
      var grown := AppendRows(s1, start, end);
      FillCellsFrame(grown, 0, s.columns, start, end, true);
      assert RowsChanged(s, end) == AddRowBoxes(grown, start, end);
    } else {
      assert RowsChanged(s, end) == RemoveRows(s1, start, end);
    }
  }

  // ---------------------------------------------------------------------
  // Growing and shrinking back

  /** Adding columns and then removing them again (with rows present)
      gives back the same states, boxes and column labels. */
  lemma ColumnsGrowThenShrink(s: GridState, end: nat)
    requires Shaped(s) && s.columns < end && s.rows > 0
    ensures (ColumnsChangedWellFormed(s, end);
      var r := ColumnsChanged(ColumnsChanged(s, end), s.columns);
      && r.columns == s.columns && r.states == s.states && r.checkBoxes == s.checkBoxes
      && r.columnLabels == s.columnLabels)
  {
    var m := ColumnsChanged(s, end);
    ColumnsGrowShaped(s, end);
    ColumnsGrowKeepsColumns(s, end);
    ColumnsShrinkRemoves(m, s.columns);
    assert m.states[..s.columns] == s.states;
    assert m.checkBoxes[..s.columns] == s.checkBoxes;
    assert m.columnLabels[..s.columns] == s.columnLabels;
  }

  /** Adding rows and then removing them again (with columns present)
      gives back the same states, boxes, row labels and row definitions. */
  lemma RowsGrowThenShrink(s: GridState, end: nat)
    requires Shaped(s) && s.rows < end && s.columns > 0
    ensures (RowsChangedWellFormed(s, end);
      var r := RowsChanged(RowsChanged(s, end), s.rows);
      && r.rows == s.rows && r.states == s.states && r.checkBoxes == s.checkBoxes
      && r.rowLabels == s.rowLabels && r.rowDefs == s.rowDefs)
  {
    var m := RowsChanged(s, end);
    RowsGrowShaped(s, end);
    RowsGrowKeepsCells(s, end);
    RowsShrinkRemoves(m, s.rows);
    var r := RowsChanged(m, s.rows);
    forall c | 0 <= c < s.columns ensures r.states[c] == s.states[c] && r.checkBoxes[c] == s.checkBoxes[c] {
    }
    RowsGrowHeaders(s, end);
  }

  /** Growing the rows appends to RowLabels and RowDefinitions. */
  lemma RowsGrowHeaders(s: GridState, end: nat)
    requires Shaped(s) && s.rows < end && s.columns > 0
    ensures var r := RowsChanged(s, end);
      && |r.rowLabels| == end && |r.rowDefs| == end + 1
      && r.rowLabels[..s.rows] == s.rowLabels && r.rowDefs[..s.rows + 1] == s.rowDefs
  {
    var s1 := s.(rows := end);
    AppendRowsFacts(s1, s.rows, end);
    var grown := AppendRows(s1, s.rows, end);
    FillCellsFrame(grown, 0, s.columns, s.rows, end, true);
    assert RowsChanged(s, end) == AddRowBoxes(grown, s.rows, end);
    assert grown.rowDefs[..s.rows + 1] == s.rowDefs;
  }

  // ---------------------------------------------------------------------
  // Labels, spacing, the Checked event

  /** ShowLabels sizes the header column and header row (definition 0):
      auto when the labels are shown, zero pixels when they are not. It
      changes nothing else, and setting the same value again changes
      nothing more. */
  lemma ShowLabelsSetsHeaders(s: GridState, v: bool)
    requires 1 <= |s.columnDefs| && 1 <= |s.rowDefs|
    ensures var r := ShowLabelsChanged(s, v);
      && r.showLabels == v
      && r.columnDefs[0] == r.rowDefs[0] == (if v then Auto else ZeroPixels)
      && r.columnDefs[1..] == s.columnDefs[1..] && r.rowDefs[1..] == s.rowDefs[1..]
      && r.(showLabels := s.showLabels, columnDefs := s.columnDefs, rowDefs := s.rowDefs) == s
      && ShowLabelsChanged(r, v) == r
  {
    var r := ShowLabelsChanged(s, v);
    assert r.columnDefs[0 := HeaderSize(v)] == r.columnDefs;
    assert r.rowDefs[0 := HeaderSize(v)] == r.rowDefs;
  }

  /** Spacing becomes the margin of every box and changes nothing else
      about the boxes or the control; only the last of two settings
      counts. */
  lemma SpacingSetsMargins(s: GridState, t: Thickness)
    ensures var r := SpacingChanged(s, t);
      && r.spacing == t && |r.checkBoxes| == |s.checkBoxes|
      && (forall c :: 0 <= c < |s.checkBoxes| ==> |r.checkBoxes[c]| == |s.checkBoxes[c]|)
      && (forall c, k :: 0 <= c < |s.checkBoxes| && 0 <= k < |s.checkBoxes[c]| ==>
            r.checkBoxes[c][k] == s.checkBoxes[c][k].(margin := t))
      && r.(spacing := s.spacing, checkBoxes := s.checkBoxes) == s
  {
  }

  /** A second Spacing overrides the first. */
  lemma SpacingLastWins(s: GridState, t1: Thickness, t2: Thickness)
    ensures SpacingChanged(SpacingChanged(s, t1), t2) == SpacingChanged(s, t2)
  {
    var a := WithMargin(WithMargin(s.checkBoxes, t1), t2);
    var b := WithMargin(s.checkBoxes, t2);
    assert |a| == |b|;
    forall c | 0 <= c < |a| ensures a[c] == b[c] {
      assert |a[c]| == |b[c]|;
    }
  }

  /** In a shaped control the box of cell (c, k) is bound to States[c][k],
      and a Checked or Unchecked event from it reports cell (c, k). */
  lemma CheckedReportsBoundCell(s: GridState, c: int, k: int)
    requires Shaped(s) && 0 <= c < s.columns && 0 <= k < s.rows
    ensures var b := s.checkBoxes[c][k];
      EventCell(b) == Cell(c, k) && b.binding == Some(EventCell(b))
  {
    assert PlacedAt(s.checkBoxes[c][k], c, k);
  }
}
