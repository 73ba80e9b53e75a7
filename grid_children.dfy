/**
 * The host grid's Children against the control's own collections. Every box
 * in CheckBoxes and every label in ColumnLabels and RowLabels is a child of
 * the grid, and nothing else is; each handler keeps that so while the
 * control keeps its shape, and a shrink takes out of the children exactly
 * the boxes and labels it drops from the collections.
 */
module GridChildren {
  import opened Layout
  import opened GridSpec
  import opened GridLoops

  /** grid.Children holds exactly the control's boxes and labels. */
  predicate ChildrenMatch(s: GridState) {
    s.children == Handles(s)
  }

  // ---------------------------------------------------------------------
  // The handles of a matrix of boxes

  lemma {:induction false} CellHandlesSplit(a: seq<seq<CheckBox>>, b: seq<seq<CheckBox>>, from: nat)
    requires forall c :: 0 <= c < |a| ==> from <= |a[c]|
    requires forall c :: 0 <= c < |b| ==> from <= |b[c]|
    ensures CellHandles(a + b, from) == CellHandles(a, from) + CellHandles(b, from)
    decreases |a|
  {
    if a == [] {
      assert a + b == b;
    } else {
      assert (a + b)[1..] == a[1..] + b;
      CellHandlesSplit(a[1..], b, from);
    }
  }

  lemma {:induction false} CellHandlesEmpty(n: nat)
    ensures CellHandles(EmptyColumns<CheckBox>(n), 0) == multiset{}
  {
    if n > 0 {
      assert EmptyColumns<CheckBox>(n)[1..] == EmptyColumns<CheckBox>(n - 1);
      CellHandlesEmpty(n - 1);
    }
  }

  /** Appending box b to column c adds b's handle and nothing else. */
  lemma {:induction false} CellHandlesAdd(cols: seq<seq<CheckBox>>, c: nat, b: CheckBox)
    requires c < |cols|
    ensures CellHandles(cols[c := cols[c] + [b]], 0) == CellHandles(cols, 0) + multiset{b.handle}
    decreases c
  {
    var t := cols[c := cols[c] + [b]];
    if c == 0 {
      assert t[1..] == cols[1..];
      assert t[0][0..] == cols[0] + [b] && cols[0][0..] == cols[0];
      assert BoxHandles(cols[0] + [b]) == BoxHandles(cols[0]) + [b.handle];
    } else {
      assert t[1..] == cols[1..][c - 1 := cols[c] + [b]];
      CellHandlesAdd(cols[1..], c - 1, b);
    }
  }

  /** Matrices whose columns hold boxes with the same handles have the same
      handles. */
  lemma {:induction false} CellHandlesAlike(a: seq<seq<CheckBox>>, b: seq<seq<CheckBox>>)
    requires |a| == |b| && forall c :: 0 <= c < |a| ==> BoxHandles(a[c]) == BoxHandles(b[c])
    ensures CellHandles(a, 0) == CellHandles(b, 0)
    decreases |a|
  {
    if a != [] {
      assert a[0][0..] == a[0] && b[0][0..] == b[0];
      CellHandlesAlike(a[1..], b[1..]);
    }
  }

  /** All of each column's boxes are its first `end` boxes and the rest. */
  lemma {:induction false} CellHandlesHeads(cols: seq<seq<CheckBox>>, heads: seq<seq<CheckBox>>, end: nat)
    requires |heads| == |cols|
    requires forall c :: 0 <= c < |cols| ==> end <= |cols[c]| && heads[c] == cols[c][..end]
    ensures CellHandles(cols, 0) == CellHandles(heads, 0) + CellHandles(cols, end)
    decreases |cols|
  {
    if cols != [] {
      var col := cols[0];
      assert col[0..] == col[..end] + col[end..];
      assert heads[0][0..] == col[..end];
      assert BoxHandles(col[..end] + col[end..]) == BoxHandles(col[..end]) + BoxHandles(col[end..]);
      CellHandlesHeads(cols[1..], heads[1..], end);
    }
  }

  lemma LabelHandlesSplit(labels: seq<TextBlock>, end: nat)
    requires end <= |labels|
    ensures multiset(LabelHandles(labels)) == multiset(LabelHandles(labels[..end])) + multiset(LabelHandles(labels[end..]))
  {
    assert LabelHandles(labels) == LabelHandles(labels[..end]) + LabelHandles(labels[end..]);
  }

  lemma WithVisibilityHandles(labels: seq<TextBlock>, v: Visibility)
    ensures LabelHandles(WithVisibility(labels, v)) == LabelHandles(labels)
  {
  }

  lemma MinusBoth(m: multiset<Handle>, a: multiset<Handle>, b: multiset<Handle>)
    ensures m - a - b == m - (a + b)
  {
    assert forall x :: (m - a - b)[x] == (m - (a + b))[x];
  }

  // ---------------------------------------------------------------------
  // Growing keeps the children in step

  lemma AddBoxMatch(s: GridState, c: nat, r: int, subscribed: bool)
    requires c < |s.states| == |s.checkBoxes| && ChildrenMatch(s)
    ensures ChildrenMatch(AddBox(s, c, r, subscribed))
  {
    AdoptAdds(s.children, s.nextHandle);
    CellHandlesAdd(s.checkBoxes, c, NewBox(s.nextHandle, c, r, s.spacing, subscribed));
  }

  lemma {:induction false} FillColumnMatch(s: GridState, c: nat, lo: nat, hi: nat, subscribed: bool)
    requires c < |s.states| == |s.checkBoxes| && lo <= hi && ChildrenMatch(s)
    ensures ChildrenMatch(FillColumn(s, c, lo, hi, subscribed))
    decreases hi - lo
  {
    if hi > lo {
      var t := FillColumn(s, c, lo, hi - 1, subscribed);
      FillColumnMatch(s, c, lo, hi - 1, subscribed);
      AddBoxMatch(t, c, hi - 1, subscribed);
      assert FillColumn(s, c, lo, hi, subscribed) == AddBox(t, c, hi - 1, subscribed);
    }
  }

  lemma {:induction false} FillCellsMatch(s: GridState, clo: nat, chi: nat, rlo: nat, rhi: nat, subscribed: bool)
    requires clo <= chi <= |s.states| == |s.checkBoxes| && rlo <= rhi && ChildrenMatch(s)
    ensures ChildrenMatch(FillCells(s, clo, chi, rlo, rhi, subscribed))
    decreases chi - clo
  {
    if chi > clo {
      FillCellsMatch(s, clo, chi - 1, rlo, rhi, subscribed);
      FillColumnMatch(FillCells(s, clo, chi - 1, rlo, rhi, subscribed), chi - 1, rlo, rhi, subscribed);
    }
  }

  lemma LabelHandlesJoin(a: seq<TextBlock>, b: seq<TextBlock>)
    ensures LabelHandles(a + b) == LabelHandles(a) + LabelHandles(b)
  {
  }

  lemma NewColumnLabelHandles(h: Handle, start: int, n: nat)
    ensures LabelHandles(NewColumnLabels(h, start, n)) == Range(h, h + n)
  {
  }

  lemma NewRowLabelHandles(h: Handle, start: int, n: nat)
    ensures LabelHandles(NewRowLabels(h, start, n)) == Range(h, h + n)
  {
  }

  /** The new columns are empty, and their labels are the new children. */
  lemma AppendColumnsMatch(s: GridState, start: nat, end: nat)
    requires start <= end && ChildrenMatch(s)
    ensures ChildrenMatch(AppendColumns(s, start, end))
  {
    var n, h := end - start, s.nextHandle;
    var r := AppendColumns(s, start, end);
    assert r.checkBoxes == s.checkBoxes + EmptyColumns(n);
    assert r.columnLabels == s.columnLabels + NewColumnLabels(h, start, n);
    assert r.children == s.children + multiset(Range(h, h + n));
    CellHandlesSplit(s.checkBoxes, EmptyColumns(n), 0);
    CellHandlesEmpty(n);
    assert CellHandles(r.checkBoxes, 0) == CellHandles(s.checkBoxes, 0);
    LabelHandlesJoin(s.columnLabels, NewColumnLabels(h, start, n));
    NewColumnLabelHandles(h, start, n);
    assert multiset(LabelHandles(r.columnLabels)) == multiset(LabelHandles(s.columnLabels)) + multiset(Range(h, h + n));
    AddToMiddle(CellHandles(s.checkBoxes, 0), multiset(LabelHandles(s.columnLabels)),
                multiset(LabelHandles(s.rowLabels)), multiset(Range(h, h + n)));
  }

  lemma AddToMiddle(a: multiset<Handle>, b: multiset<Handle>, c: multiset<Handle>, d: multiset<Handle>)
    ensures a + b + c + d == a + (b + d) + c
  {
    assert forall x :: (a + b + c + d)[x] == (a + (b + d) + c)[x];
  }

  /** The new row labels are the new children. */
  lemma AppendRowsMatch(s: GridState, start: nat, end: nat)
    requires start <= end && ChildrenMatch(s)
    ensures ChildrenMatch(AppendRows(s, start, end))
  {
    var n, h := end - start, s.nextHandle;
    var r := AppendRows(s, start, end);
    LabelHandlesJoin(s.rowLabels, NewRowLabels(h, start, n));
    NewRowLabelHandles(h, start, n);
    assert multiset(LabelHandles(r.rowLabels)) == multiset(LabelHandles(s.rowLabels)) + multiset(Range(h, h + n));
  }

  lemma AddColumnBoxesMatch(s: GridState, start: nat, end: nat)
    requires start <= end <= |s.states| == |s.checkBoxes| && 0 <= s.rows && ChildrenMatch(s)
    ensures ChildrenMatch(AddColumnBoxes(s, start, end))
  {
    var f := FillCells(s, start, end, 0, s.rows, false);
    FillCellsMatch(s, start, end, 0, s.rows, false);
    WithVisibilityHandles(f.rowLabels, Visible);
  }

  lemma AddRowBoxesMatch(s: GridState, start: nat, end: nat)
    requires start <= end && 0 <= s.columns <= |s.states| == |s.checkBoxes| && ChildrenMatch(s)
    ensures ChildrenMatch(AddRowBoxes(s, start, end))
  {
    var f := FillCells(s, 0, s.columns, start, end, true);
    FillCellsMatch(s, 0, s.columns, start, end, true);
    WithVisibilityHandles(f.columnLabels, Visible);
  }

  // ---------------------------------------------------------------------
  // Shrinking takes out exactly what it drops

  /** With full columns, the column-shrink loop removes every box and the
      label of each dropped column. */
  lemma {:induction false} RemovedColumnsAll(s: GridState, lo: nat, hi: nat)
    requires lo <= hi <= |s.checkBoxes| && hi <= |s.columnLabels| && 0 <= s.rows
    requires forall c :: lo <= c < hi ==> |s.checkBoxes[c]| == s.rows
    ensures RemovedColumnHandles(s, lo, hi)
         == CellHandles(s.checkBoxes[lo..hi], 0) + multiset(LabelHandles(s.columnLabels[lo..hi]))
    decreases hi - lo
  {
    if lo < hi {
      RemovedColumnsAll(s, lo + 1, hi);
      assert s.checkBoxes[lo][..s.rows] == s.checkBoxes[lo];
      CellHandlesCons(s.checkBoxes, lo, hi);
      LabelHandlesCons(s.columnLabels, lo, hi);
    }
  }

  lemma CellHandlesCons(cols: seq<seq<CheckBox>>, lo: nat, hi: nat)
    requires lo < hi <= |cols|
    ensures CellHandles(cols[lo..hi], 0) == multiset(BoxHandles(cols[lo])) + CellHandles(cols[lo + 1..hi], 0)
  {
    var cb := cols[lo..hi];
    assert cb[0][0..] == cols[lo];
    assert cb[1..] == cols[lo + 1..hi];
  }

  lemma LabelHandlesCons(labels: seq<TextBlock>, lo: nat, hi: nat)
    requires lo < hi <= |labels|
    ensures multiset(LabelHandles(labels[lo..hi])) == multiset{labels[lo].handle} + multiset(LabelHandles(labels[lo + 1..hi]))
  {
    assert labels[lo..hi] == [labels[lo]] + labels[lo + 1..hi];
    LabelHandlesJoin([labels[lo]], labels[lo + 1..hi]);
  }

  /** With full columns, the row-shrink loop removes the boxes at rows
      end..start-1 of each column it visits. */
  lemma {:induction false} RemovedRowsAll(s: GridState, lo: nat, hi: nat, end: nat, start: nat)
    requires lo <= hi <= |s.checkBoxes| && end <= start
    requires forall c :: lo <= c < hi ==> |s.checkBoxes[c]| == start
    ensures RemovedRowBoxHandles(s, lo, hi, end, start) == CellHandles(s.checkBoxes[lo..hi], end)
    decreases hi - lo
  {
    if lo < hi {
      RemovedRowsAll(s, lo + 1, hi, end, start);
      var cb := s.checkBoxes[lo..hi];
      assert cb[1..] == s.checkBoxes[lo + 1..hi];
      assert cb[0][end..] == s.checkBoxes[lo][end..start];
    }
  }

  /** Shrinking the columns of a shaped grid (with rows present) takes out
      of the children every box and the label of each dropped column. */
  lemma ColumnsShrinkChildren(s: GridState, end: nat)
    requires Shaped(s) && end < s.columns && s.rows > 0
    ensures var r := ColumnsChanged(s, end);
      && r.checkBoxes == s.checkBoxes[..end] && r.columnLabels == s.columnLabels[..end]
      && |r.rowLabels| == |s.rowLabels|
      && LabelHandles(r.rowLabels) == LabelHandles(s.rowLabels)
      && r.children == s.children - (CellHandles(s.checkBoxes[end..], 0) + multiset(LabelHandles(s.columnLabels[end..])))
  {
    var s1 := s.(columns := end);
    assert ColumnsChanged(s, end) == RemoveColumns(s1, s.columns, end);
    DropTailColumns(s1, end);
    WithVisibilityHandles(s.rowLabels, Hidden);
  }

  /** Dropping every column from end on: the kept lists are the prefixes
      and the children lose the boxes and labels of the rest. */
  lemma DropTailColumns(s: GridState, end: nat)
    requires end <= |s.states| == |s.checkBoxes| == |s.columnLabels| && |s.columnDefs| == |s.states| + 1
    requires 0 <= s.rows && forall c :: end <= c < |s.checkBoxes| ==> |s.checkBoxes[c]| == s.rows
    ensures var d := DropColumns(s, |s.states|, end);
      && d.checkBoxes == s.checkBoxes[..end] && d.columnLabels == s.columnLabels[..end]
      && d.rowLabels == s.rowLabels
      && d.children == s.children - (CellHandles(s.checkBoxes[end..], 0) + multiset(LabelHandles(s.columnLabels[end..])))
  {
    var n := |s.states|;
    assert Cut(s.checkBoxes, end, n) == s.checkBoxes[..end];
    assert Cut(s.columnLabels, end, n) == s.columnLabels[..end];
    TailColumnHandles(s, end);
  }

  lemma TailColumnHandles(s: GridState, end: nat)
    requires end <= |s.checkBoxes| == |s.columnLabels|
    requires 0 <= s.rows && forall c :: end <= c < |s.checkBoxes| ==> |s.checkBoxes[c]| == s.rows
    ensures RemovedColumnHandles(s, end, |s.checkBoxes|)
         == CellHandles(s.checkBoxes[end..], 0) + multiset(LabelHandles(s.columnLabels[end..]))
  {
    var n := |s.checkBoxes|;
    RemovedColumnsAll(s, end, n);
    SliceToEnd(s.checkBoxes, end);
    SliceToEnd(s.columnLabels, end);
  }

  lemma SliceToEnd<T>(xs: seq<T>, i: nat)
    requires i <= |xs|
    ensures xs[i..|xs|] == xs[i..]
  {
  }

  /** Shrinking the rows of a shaped grid (with columns present) takes out
      of the children the boxes at the dropped rows of every column and the
      dropped rows' labels. */
  lemma RowsShrinkChildren(s: GridState, end: nat)
    requires Shaped(s) && end < s.rows && s.columns > 0
    ensures var r := RowsChanged(s, end);
      && |r.checkBoxes| == |s.checkBoxes|
      && (forall c :: 0 <= c < |s.checkBoxes| ==> r.checkBoxes[c] == s.checkBoxes[c][..end])
      && r.rowLabels == s.rowLabels[..end]
      && LabelHandles(r.columnLabels) == LabelHandles(s.columnLabels)
      && r.children == s.children - (CellHandles(s.checkBoxes, end) + multiset(LabelHandles(s.rowLabels[end..])))
  {
    var s1 := s.(rows := end);
    assert RowsChanged(s, end) == RemoveRows(s1, s.rows, end);
    var d := DropRowCells(s1, 0, s.columns, end, s.rows);
    RemovedRowsAll(s1, 0, s.columns, end, s.rows);
    assert s.checkBoxes[0..s.columns] == s.checkBoxes;
    assert s.rowLabels[end..s.rows] == s.rowLabels[end..];
    assert Cut(s.rowLabels, end, s.rows) == s.rowLabels[..end];
    forall c | 0 <= c < |s.checkBoxes|
      ensures d.checkBoxes[c] == s.checkBoxes[c][..end]
    {
      assert s.checkBoxes[c][s.rows..] == [];
    }
    MinusBoth(s.children, RemovedRowBoxHandles(s1, 0, s.columns, end, s.rows),
              multiset(LabelHandles(s.rowLabels[end..])));
    WithVisibilityHandles(s.columnLabels, Hidden);
  }

  // ---------------------------------------------------------------------
  // Every handler keeps the children in step

  /** Taking the dropped parts out of the whole leaves the kept parts. */
  lemma MinusDropped(x1: multiset<Handle>, x2: multiset<Handle>, y1: multiset<Handle>, y2: multiset<Handle>, z: multiset<Handle>)
    ensures (x1 + x2) + (y1 + y2) + z - (x2 + y2) == x1 + y1 + z
  {
    assert forall h :: ((x1 + x2) + (y1 + y2) + z - (x2 + y2))[h] == (x1 + y1 + z)[h];
  }

  lemma ColumnsShrinkMatch(s: GridState, end: nat)
    requires Shaped(s) && ChildrenMatch(s) && end < s.columns && s.rows > 0
    ensures ChildrenMatch(ColumnsChanged(s, end))
  {
    ColumnsShrinkChildren(s, end);
    var r := ColumnsChanged(s, end);
    assert s.checkBoxes == s.checkBoxes[..end] + s.checkBoxes[end..];
    CellHandlesSplit(s.checkBoxes[..end], s.checkBoxes[end..], 0);
    LabelHandlesSplit(s.columnLabels, end);
    var x1, x2 := CellHandles(s.checkBoxes[..end], 0), CellHandles(s.checkBoxes[end..], 0);
    var y1, y2 := multiset(LabelHandles(s.columnLabels[..end])), multiset(LabelHandles(s.columnLabels[end..]));
    var z := multiset(LabelHandles(s.rowLabels));
    assert s.children == (x1 + x2) + (y1 + y2) + z;
    assert r.children == s.children - (x2 + y2);
    MinusDropped(x1, x2, y1, y2, z);
    assert Handles(r) == x1 + y1 + z;
  }

  lemma RowsShrinkMatch(s: GridState, end: nat)
    requires Shaped(s) && ChildrenMatch(s) && end < s.rows && s.columns > 0
    ensures ChildrenMatch(RowsChanged(s, end))
  {
    RowsShrinkChildren(s, end);
    var r := RowsChanged(s, end);
    CellHandlesHeads(s.checkBoxes, r.checkBoxes, end);
    LabelHandlesSplit(s.rowLabels, end);
  }

  lemma ColumnsChangedMatch(s: GridState, end: nat)
    requires Shaped(s) && ChildrenMatch(s)
    ensures ChildrenMatch(ColumnsChanged(s, end))
  {
    var s1 := s.(columns := end);
    if s.columns < end {
      AppendColumnsMatch(s1, s.columns, end);
      if s.rows > 0 {
        var grown := AppendColumns(s1, s.columns, end);
        AddColumnBoxesMatch(grown, s.columns, end);
      }
    } else if end < s.columns && s.rows > 0 {
      ColumnsShrinkMatch(s, end);
    }
  }

  lemma RowsChangedMatch(s: GridState, end: nat)
    requires Shaped(s) && ChildrenMatch(s)
    ensures ChildrenMatch(RowsChanged(s, end))
  {
    var s1 := s.(rows := end);
    if s.rows < end {
      AppendRowsMatch(s1, s.rows, end);
      if s.columns > 0 {
        var grown := AppendRows(s1, s.rows, end);
        AddRowBoxesMatch(grown, s.rows, end);
      }
    } else if end < s.rows && s.columns > 0 {
      RowsShrinkMatch(s, end);
    }
  }

  lemma SpacingMatch(s: GridState, t: Thickness)
    requires ChildrenMatch(s)
    ensures ChildrenMatch(SpacingChanged(s, t))
  {
    var r := SpacingChanged(s, t);
    forall c | 0 <= c < |s.checkBoxes|
      ensures BoxHandles(r.checkBoxes[c]) == BoxHandles(s.checkBoxes[c])
    {
    }
    CellHandlesAlike(r.checkBoxes, s.checkBoxes);
  }
}
