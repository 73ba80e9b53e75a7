/**
 * What the handlers guarantee, proved about the value model in GridSpec:
 * the always-true invariant WellFormed, the shape invariant Shaped and the
 * exact condition under which a resize keeps it, the effect of each branch
 * on the collections, and the facts the imperative loops rely on.
 */
module GridLemmas {
  import opened Layout
  import opened GridSpec

  // ---------------------------------------------------------------------
  // Field-level effect of each block

  lemma AppendColumnsFacts(s: GridState, start: nat, end: nat)
    requires start <= end
    ensures var r := AppendColumns(s, start, end);
      && r.columns == s.columns && r.rows == s.rows && r.rowLabels == s.rowLabels && r.rowDefs == s.rowDefs
      && r.spacing == s.spacing
      && |r.states| == |s.states| + (end - start) && |r.checkBoxes| == |s.checkBoxes| + (end - start)
      && |r.columnLabels| == |s.columnLabels| + (end - start) && |r.columnDefs| == |s.columnDefs| + (end - start)
      && (forall c :: 0 <= c < |s.states| ==> r.states[c] == s.states[c])
      && (forall c :: 0 <= c < |s.checkBoxes| ==> r.checkBoxes[c] == s.checkBoxes[c])
      && (forall c :: |s.states| <= c < |r.states| ==> r.states[c] == [])
      && (forall c :: |s.checkBoxes| <= c < |r.checkBoxes| ==> r.checkBoxes[c] == [])
      && r.columnLabels[..|s.columnLabels|] == s.columnLabels
      && (forall j :: |s.columnLabels| <= j < |r.columnLabels| ==>
            ColumnLabelOf(r.columnLabels[j], start + (j - |s.columnLabels|)))
  {
  }

  lemma AppendRowsFacts(s: GridState, start: nat, end: nat)
    requires start <= end
    ensures var r := AppendRows(s, start, end);
      && r.columns == s.columns && r.rows == s.rows && r.states == s.states && r.checkBoxes == s.checkBoxes
      && r.columnLabels == s.columnLabels && r.columnDefs == s.columnDefs && r.spacing == s.spacing
      && |r.rowLabels| == |s.rowLabels| + (end - start) && |r.rowDefs| == |s.rowDefs| + (end - start)
      && r.rowLabels[..|s.rowLabels|] == s.rowLabels
      && (forall j :: |s.rowLabels| <= j < |r.rowLabels| ==> RowLabelOf(r.rowLabels[j], start + (j - |s.rowLabels|)))
  {
  }

  /** Consecutive handle ranges join. */
  lemma {:induction false} RangeJoin(a: nat, b: nat, c: nat)
    requires a <= b <= c
    ensures multiset(Range(a, b)) + multiset(Range(b, c)) == multiset(Range(a, c))
  {
    assert Range(a, b) + Range(b, c) == Range(a, c);
  }

  /** The inner grow loop touches only the cells, the children and the
      handle counter. */
  lemma {:induction false} FillColumnFrame(s: GridState, c: nat, lo: nat, hi: nat, subscribed: bool)
    requires c < |s.states| == |s.checkBoxes| && lo <= hi
    ensures var r := FillColumn(s, c, lo, hi, subscribed);
      && r.columns == s.columns && r.rows == s.rows && r.spacing == s.spacing && r.showLabels == s.showLabels
      && r.columnLabels == s.columnLabels && r.rowLabels == s.rowLabels
      && r.columnDefs == s.columnDefs && r.rowDefs == s.rowDefs
    decreases hi - lo
  {
    if hi > lo {
      FillColumnFrame(s, c, lo, hi - 1, subscribed);
    }
  }

  /** The inner grow loop takes hi - lo fresh handles and adds them all to
      the grid's children. */
  lemma {:induction false} FillColumnHandles(s: GridState, c: nat, lo: nat, hi: nat, subscribed: bool)
    requires c < |s.states| == |s.checkBoxes| && lo <= hi
    ensures var r := FillColumn(s, c, lo, hi, subscribed);
      && r.nextHandle == s.nextHandle + (hi - lo)
      && r.children == s.children + multiset(Range(s.nextHandle, r.nextHandle))
    decreases hi - lo
  {
    if hi > lo {
      var p := FillColumn(s, c, lo, hi - 1, subscribed);
      FillColumnHandles(s, c, lo, hi - 1, subscribed);
      RangeJoin(s.nextHandle, p.nextHandle, p.nextHandle + 1);
      assert Range(p.nextHandle, p.nextHandle + 1) == [p.nextHandle];
    } else {
      assert Range(s.nextHandle, s.nextHandle) == [];
    }
  }

  /** The inner grow loop leaves every other column alone. */
  lemma {:induction false} FillColumnOthers(s: GridState, c: nat, lo: nat, hi: nat, subscribed: bool, d: nat)
    requires c < |s.states| == |s.checkBoxes| && lo <= hi && d < |s.states| && d != c
    ensures var r := FillColumn(s, c, lo, hi, subscribed);
      r.states[d] == s.states[d] && r.checkBoxes[d] == s.checkBoxes[d]
    decreases hi - lo
  {
    if hi > lo {
      FillColumnOthers(s, c, lo, hi - 1, subscribed, d);
    }
  }

  lemma NewBoxesStep(h: Handle, c: int, rlo: int, n: nat, m: Thickness, subscribed: bool)
    ensures NewBoxes(h, c, rlo, n + 1, m, subscribed) == NewBoxes(h, c, rlo, n, m, subscribed) + [NewBox(h + n, c, rlo + n, m, subscribed)]
  {
    var a := NewBoxes(h, c, rlo, n + 1, m, subscribed);
    var b := NewBoxes(h, c, rlo, n, m, subscribed) + [NewBox(h + n, c, rlo + n, m, subscribed)];
    assert |a| == |b|;
    forall k | 0 <= k < |a| ensures a[k] == b[k] {}
  }

  /** The inner grow loop appends hi - lo false states to column c. */
  lemma {:induction false} FillColumnStates(s: GridState, c: nat, lo: nat, hi: nat, subscribed: bool)
    requires c < |s.states| == |s.checkBoxes| && lo <= hi
    ensures FillColumn(s, c, lo, hi, subscribed).states[c] == s.states[c] + Falses(hi - lo)
    decreases hi - lo
  {
    if hi > lo {
      FillColumnStates(s, c, lo, hi - 1, subscribed);
      assert Falses(hi - lo) == Falses(hi - 1 - lo) + [false];
    } else {
      assert Falses(0) == [];
    }
  }

  /** The inner grow loop appends to column c boxes placed at rows lo..hi-1,
      with consecutive fresh handles and the current spacing. */
  lemma {:induction false} FillColumnBoxes(s: GridState, c: nat, lo: nat, hi: nat, subscribed: bool)
    requires c < |s.states| == |s.checkBoxes| && lo <= hi
    ensures FillColumn(s, c, lo, hi, subscribed).checkBoxes[c]
         == s.checkBoxes[c] + NewBoxes(s.nextHandle, c, lo, hi - lo, s.spacing, subscribed)
    decreases hi - lo
  {
    if hi > lo {
      var p := FillColumn(s, c, lo, hi - 1, subscribed);
      var nb := NewBox(p.nextHandle, c, hi - 1, p.spacing, subscribed);
      calc {
        FillColumn(s, c, lo, hi, subscribed).checkBoxes[c];
        p.checkBoxes[c] + [nb];
        { FillColumnBoxes(s, c, lo, hi - 1, subscribed); }
        s.checkBoxes[c] + NewBoxes(s.nextHandle, c, lo, hi - 1 - lo, s.spacing, subscribed) + [nb];
        { FillColumnFrame(s, c, lo, hi - 1, subscribed);
          FillColumnHandles(s, c, lo, hi - 1, subscribed); }
        s.checkBoxes[c] + (NewBoxes(s.nextHandle, c, lo, hi - 1 - lo, s.spacing, subscribed)
                           + [NewBox(s.nextHandle + (hi - 1 - lo), c, lo + (hi - 1 - lo), s.spacing, subscribed)]);
        { NewBoxesStep(s.nextHandle, c, lo, hi - 1 - lo, s.spacing, subscribed); }
        s.checkBoxes[c] + NewBoxes(s.nextHandle, c, lo, hi - lo, s.spacing, subscribed);
      }
    } else {
      assert NewBoxes(s.nextHandle, c, lo, 0, s.spacing, subscribed) == [];
    }
  }

  /** The nested grow loop touches only the cells, the children and the
      handle counter. */
  lemma {:induction false} FillCellsFrame(s: GridState, clo: nat, chi: nat, rlo: nat, rhi: nat, subscribed: bool)
    requires clo <= chi <= |s.states| == |s.checkBoxes| && rlo <= rhi
    ensures var r := FillCells(s, clo, chi, rlo, rhi, subscribed);
      && r.columns == s.columns && r.rows == s.rows && r.spacing == s.spacing && r.showLabels == s.showLabels
      && r.columnLabels == s.columnLabels && r.rowLabels == s.rowLabels
      && r.columnDefs == s.columnDefs && r.rowDefs == s.rowDefs
    decreases chi - clo
  {
    if chi > clo {
      FillCellsFrame(s, clo, chi - 1, rlo, rhi, subscribed);
      FillColumnFrame(FillCells(s, clo, chi - 1, rlo, rhi, subscribed), chi - 1, rlo, rhi, subscribed);
    }
  }

  /** Every handle the nested grow loop takes joins the grid's children. */
  lemma {:induction false} FillCellsHandles(s: GridState, clo: nat, chi: nat, rlo: nat, rhi: nat, subscribed: bool)
    requires clo <= chi <= |s.states| == |s.checkBoxes| && rlo <= rhi
    ensures var r := FillCells(s, clo, chi, rlo, rhi, subscribed);
      && s.nextHandle <= r.nextHandle
      && r.children == s.children + multiset(Range(s.nextHandle, r.nextHandle))
    decreases chi - clo
  {
    if chi > clo {
      var p := FillCells(s, clo, chi - 1, rlo, rhi, subscribed);
      FillCellsHandles(s, clo, chi - 1, rlo, rhi, subscribed);
      FillColumnHandles(p, chi - 1, rlo, rhi, subscribed);
      RangeJoin(s.nextHandle, p.nextHandle, FillColumn(p, chi - 1, rlo, rhi, subscribed).nextHandle);
    } else {
      assert Range(s.nextHandle, s.nextHandle) == [];
    }
  }

  /** The nested grow loop leaves the columns outside clo..chi-1 alone. */
  lemma {:induction false} FillCellsOthers(s: GridState, clo: nat, chi: nat, rlo: nat, rhi: nat, subscribed: bool, d: nat)
    requires clo <= chi <= |s.states| == |s.checkBoxes| && rlo <= rhi
    requires d < |s.states| && !(clo <= d < chi)
    ensures var r := FillCells(s, clo, chi, rlo, rhi, subscribed);
      r.states[d] == s.states[d] && r.checkBoxes[d] == s.checkBoxes[d]
    decreases chi - clo
  {
    if chi > clo {
      FillCellsOthers(s, clo, chi - 1, rlo, rhi, subscribed, d);
      FillColumnOthers(FillCells(s, clo, chi - 1, rlo, rhi, subscribed), chi - 1, rlo, rhi, subscribed, d);
    }
  }

  /** The nested grow loop appends rows rlo..rhi-1 to column d of clo..chi-1:
      false states, and boxes placed at those cells with the current spacing. */
  lemma {:induction false} FillCellsColumn(s: GridState, clo: nat, chi: nat, rlo: nat, rhi: nat, subscribed: bool, d: nat)
    requires clo <= chi <= |s.states| == |s.checkBoxes| && rlo <= rhi
    requires clo <= d < chi
    ensures var r := FillCells(s, clo, chi, rlo, rhi, subscribed);
      && r.states[d] == s.states[d] + Falses(rhi - rlo)
      && |r.checkBoxes[d]| == |s.checkBoxes[d]| + (rhi - rlo)
      && r.checkBoxes[d][..|s.checkBoxes[d]|] == s.checkBoxes[d]
      && (forall j :: |s.checkBoxes[d]| <= j < |r.checkBoxes[d]| ==>
            PlacedAt(r.checkBoxes[d][j], d, rlo + (j - |s.checkBoxes[d]|))
            && r.checkBoxes[d][j].margin == s.spacing && r.checkBoxes[d][j].subscribed == subscribed)
    decreases chi - clo
  {
    var p := FillCells(s, clo, chi - 1, rlo, rhi, subscribed);
    if d == chi - 1 {
      FillCellsOthers(s, clo, chi - 1, rlo, rhi, subscribed, d);
      FillCellsFrame(s, clo, chi - 1, rlo, rhi, subscribed);
      FillColumnStates(p, d, rlo, rhi, subscribed);
      FillColumnBoxes(p, d, rlo, rhi, subscribed);
      var r := FillColumn(p, d, rlo, rhi, subscribed);
      assert r.checkBoxes[d][..|s.checkBoxes[d]|] == s.checkBoxes[d];
    } else {
      FillCellsColumn(s, clo, chi - 1, rlo, rhi, subscribed, d);
      FillColumnOthers(p, chi - 1, rlo, rhi, subscribed, d);
    }
  }

  /** The sizes the nested grow loop leaves: rhi - rlo more cells in each
      column clo..chi-1, the same everywhere else. */
  lemma FillCellsSizes(s: GridState, clo: nat, chi: nat, rlo: nat, rhi: nat, subscribed: bool)
    requires clo <= chi <= |s.states| == |s.checkBoxes| && rlo <= rhi
    ensures var r := FillCells(s, clo, chi, rlo, rhi, subscribed);
      && r.columns == s.columns && r.rows == s.rows
      && r.columnLabels == s.columnLabels && r.rowLabels == s.rowLabels
      && r.columnDefs == s.columnDefs && r.rowDefs == s.rowDefs
      && (forall c :: 0 <= c < |s.states| ==>
            var n := if clo <= c < chi then rhi - rlo else 0;
            |r.states[c]| == |s.states[c]| + n && |r.checkBoxes[c]| == |s.checkBoxes[c]| + n)
  {
    FillCellsFacts(s, clo, chi, rlo, rhi, subscribed);
  }

  /** The nested grow loop appends rows rlo..rhi-1 to every column in
      clo..chi-1 and to no other column. */
  lemma FillCellsFacts(s: GridState, clo: nat, chi: nat, rlo: nat, rhi: nat, subscribed: bool)
    requires clo <= chi <= |s.states| == |s.checkBoxes| && rlo <= rhi
    ensures var r := FillCells(s, clo, chi, rlo, rhi, subscribed);
      && r.columns == s.columns && r.rows == s.rows && r.spacing == s.spacing && r.showLabels == s.showLabels
      && r.columnLabels == s.columnLabels && r.rowLabels == s.rowLabels
      && r.columnDefs == s.columnDefs && r.rowDefs == s.rowDefs
      && s.nextHandle <= r.nextHandle
      && r.children == s.children + multiset(Range(s.nextHandle, r.nextHandle))
      && |r.states| == |s.states| && |r.checkBoxes| == |s.checkBoxes|
      && (forall c :: 0 <= c < |s.states| && !(clo <= c < chi) ==> r.states[c] == s.states[c] && r.checkBoxes[c] == s.checkBoxes[c])
      && (forall c :: clo <= c < chi ==> r.states[c] == s.states[c] + Falses(rhi - rlo))
      && (forall c :: clo <= c < chi ==> |r.checkBoxes[c]| == |s.checkBoxes[c]| + (rhi - rlo))
      && (forall c :: clo <= c < chi ==> r.checkBoxes[c][..|s.checkBoxes[c]|] == s.checkBoxes[c])
      && (forall c, j :: clo <= c < chi && |s.checkBoxes[c]| <= j < |r.checkBoxes[c]| ==>
            var b := r.checkBoxes[c][j];
            PlacedAt(b, c, rlo + (j - |s.checkBoxes[c]|)) && b.margin == s.spacing && b.subscribed == subscribed)
  {
    FillCellsFrame(s, clo, chi, rlo, rhi, subscribed);
    FillCellsHandles(s, clo, chi, rlo, rhi, subscribed);
    forall d | 0 <= d < |s.states| && !(clo <= d < chi) {
      FillCellsOthers(s, clo, chi, rlo, rhi, subscribed, d);
    }
    forall d | clo <= d < chi {
      FillCellsColumn(s, clo, chi, rlo, rhi, subscribed, d);
    }
  }

  lemma RemoveColumnsFacts(s: GridState, start: nat, end: nat)
    requires end <= start <= |s.states|
    requires |s.checkBoxes| == |s.states| == |s.columnLabels| && |s.columnDefs| == |s.states| + 1
    requires 0 <= s.rows && forall c :: end <= c < start ==> s.rows <= |s.checkBoxes[c]|
    ensures var r := RemoveColumns(s, start, end);
      && r.columns == s.columns && r.rows == s.rows && r.spacing == s.spacing && r.rowDefs == s.rowDefs
      && |r.rowLabels| == |s.rowLabels|
      && (forall k :: 0 <= k < |r.rowLabels| ==> RowLabelOf(r.rowLabels[k], k) == RowLabelOf(s.rowLabels[k], k))
      && |r.states| == |s.states| - (start - end) && |r.checkBoxes| == |r.states|
      && |r.columnLabels| == |r.states| && |r.columnDefs| == |r.states| + 1
      && (forall c :: 0 <= c < end ==>
            r.states[c] == s.states[c] && r.checkBoxes[c] == s.checkBoxes[c] && r.columnLabels[c] == s.columnLabels[c])
      && (forall c :: end <= c < |r.states| ==>
            r.states[c] == s.states[c + (start - end)] && r.checkBoxes[c] == s.checkBoxes[c + (start - end)])
  {
  }

  lemma RemoveRowsFacts(s: GridState, start: nat, end: nat)
    requires end <= start <= |s.rowLabels| && |s.rowDefs| == |s.rowLabels| + 1
    requires 0 <= s.columns <= |s.states| == |s.checkBoxes|
    requires forall c :: 0 <= c < s.columns ==> start <= |s.states[c]| == |s.checkBoxes[c]|
    ensures var r := RemoveRows(s, start, end);
      && r.columns == s.columns && r.rows == s.rows && r.spacing == s.spacing && r.columnDefs == s.columnDefs
      && |r.columnLabels| == |s.columnLabels|
      && (forall k :: 0 <= k < |r.columnLabels| ==> ColumnLabelOf(r.columnLabels[k], k) == ColumnLabelOf(s.columnLabels[k], k))
      && |r.states| == |s.states| && |r.checkBoxes| == |s.checkBoxes|
      && |r.rowLabels| == |s.rowLabels| - (start - end) && |r.rowDefs| == |r.rowLabels| + 1
      && (forall k :: 0 <= k < end ==> r.rowLabels[k] == s.rowLabels[k])
      && (forall c :: s.columns <= c < |s.states| ==> r.states[c] == s.states[c] && r.checkBoxes[c] == s.checkBoxes[c])
      && (forall c :: 0 <= c < s.columns ==>
            r.states[c] == Cut(s.states[c], end, start) && r.checkBoxes[c] == Cut(s.checkBoxes[c], end, start))
  {
  }

  // ---------------------------------------------------------------------
  // WellFormed holds after every handler, in every order of calls

  lemma ColumnsChangedWellFormed(s: GridState, end: nat)
    requires WellFormed(s)
    ensures WellFormed(ColumnsChanged(s, end))
  {
    var start := s.columns;
    var s1 := s.(columns := end);
    if start < end {
      var grown := AppendColumns(s1, start, end);
      if s.rows > 0 {
        assert ColumnsChanged(s, end) == AddColumnBoxes(grown, start, end);
        ColumnsGrowWellFormed(s, end);
      } else {
        assert ColumnsChanged(s, end) == grown;
        AppendColumnsFacts(s1, start, end);
      }
    } else if start > end && s.rows > 0 {
      ColumnsShrinkWellFormed(s, end);
    }
  }

  lemma ColumnsShrinkWellFormed(s: GridState, end: nat)
    requires WellFormed(s) && end < s.columns && s.rows > 0
    ensures WellFormed(ColumnsChanged(s, end))
  {
    var s1 := s.(columns := end);
    assert ColumnsChanged(s, end) == RemoveColumns(s1, s.columns, end);
    RemoveColumnsFacts(s1, s.columns, end);
  }

  lemma ColumnsGrowWellFormed(s: GridState, end: nat)
    requires WellFormed(s) && s.columns < end && s.rows > 0
    ensures WellFormed(AddColumnBoxes(AppendColumns(s.(columns := end), s.columns, end), s.columns, end))
  {
    var s1 := s.(columns := end);
    AppendColumnsFacts(s1, s.columns, end);
    var grown := AppendColumns(s1, s.columns, end);
    FillCellsSizes(grown, s.columns, end, 0, s.rows, false);
  }

  lemma RowsChangedWellFormed(s: GridState, end: nat)
    requires WellFormed(s)
    ensures WellFormed(RowsChanged(s, end))
  {
    var start := s.rows;
    var s1 := s.(rows := end);
    if start < end {
      AppendRowsFacts(s1, start, end);
      var grown := AppendRows(s1, start, end);
      if s.columns > 0 {
        FillCellsSizes(grown, 0, s.columns, start, end, true);
      }
    } else if start > end && s.columns > 0 {
      RemoveRowsFacts(s1, start, end);
    }
  }

  // ---------------------------------------------------------------------
  // The shape invariant

  lemma InitialShaped()
    ensures Shaped(Initial)
  {
  }

  /** Growing the columns keeps the shape, whether or not there are rows. */
  lemma ColumnsGrowShaped(s: GridState, end: nat)
    requires Shaped(s) && s.columns < end
    ensures Shaped(ColumnsChanged(s, end))
  {
    var start := s.columns;
    var s1 := s.(columns := end);
    AppendColumnsFacts(s1, start, end);
    var grown := AppendColumns(s1, start, end);
    if s.rows > 0 {
      assert ColumnsChanged(s, end) == AddColumnBoxes(grown, start, end);
      ColumnsGrowBoxesShaped(s, end);
    } else {
      assert ColumnsChanged(s, end) == grown;
      var r := grown;
      forall c | 0 <= c < end ensures ColumnLabelOf(r.columnLabels[c], c) {
        if c < start { assert r.columnLabels[c] == grown.columnLabels[..start][c]; }
      }
    }
  }

  /** The second loop of a column grow, when there are rows, places one
      box per new cell and keeps the shape. */
  lemma ColumnsGrowBoxesShaped(s: GridState, end: nat)
    requires Shaped(s) && s.columns < end && s.rows > 0
    ensures Shaped(AddColumnBoxes(AppendColumns(s.(columns := end), s.columns, end), s.columns, end))
  {
    var start := s.columns;
    var s1 := s.(columns := end);
    AppendColumnsFacts(s1, start, end);
    var grown := AppendColumns(s1, start, end);
    ColumnsGrowWellFormed(s, end);
      FillCellsFacts(grown, start, end, 0, s.rows, false);
      var r := AddColumnBoxes(grown, start, end);
      forall c, k | 0 <= c < end && 0 <= k < s.rows ensures PlacedAt(r.checkBoxes[c][k], c, k) {
        if c < start {
          assert r.checkBoxes[c] == s.checkBoxes[c];
        } else {
          assert |grown.checkBoxes[c]| == 0;
        }
      }
      forall c | 0 <= c < end ensures ColumnLabelOf(r.columnLabels[c], c) {
        if c < start { assert r.columnLabels[c] == grown.columnLabels[..start][c]; }
      }
      forall k | 0 <= k < s.rows ensures RowLabelOf(r.rowLabels[k], k) {
        assert RowLabelOf(s.rowLabels[k], k);
      }
  }


  /** Shrinking the columns keeps the shape when there are rows, and breaks
      it when there are none: the early return leaves States, CheckBoxes and
      ColumnLabels at their old length. */
  lemma ColumnsShrinkShaped(s: GridState, end: nat)
    requires Shaped(s) && end < s.columns
    ensures Shaped(ColumnsChanged(s, end)) <==> s.rows > 0
    ensures s.rows == 0 ==> |ColumnsChanged(s, end).states| == s.columns
  {
    var start := s.columns;
    var s1 := s.(columns := end);
    if s.rows > 0 {
      assert ColumnsChanged(s, end) == RemoveColumns(s1, start, end);
      RemoveColumnsFacts(s1, start, end);
      var r := RemoveColumns(s1, start, end);
      forall c, k | 0 <= c < end && 0 <= k < s.rows ensures PlacedAt(r.checkBoxes[c][k], c, k) {
        assert r.checkBoxes[c] == s.checkBoxes[c];
      }
      forall k | 0 <= k < s.rows ensures RowLabelOf(r.rowLabels[k], k) {
        assert RowLabelOf(s.rowLabels[k], k);
      }
    } else {
      assert ColumnsChanged(s, end) == s1;
    }
  }

  /** Growing the rows keeps the shape, whether or not there are columns. */
  lemma RowsGrowShaped(s: GridState, end: nat)
    requires Shaped(s) && s.rows < end
    ensures Shaped(RowsChanged(s, end))
  {
    var start := s.rows;
    var s1 := s.(rows := end);
    var grown := AppendRows(s1, start, end);
    if s.columns > 0 {
      assert RowsChanged(s, end) == AddRowBoxes(grown, start, end);
      RowsGrowBoxesShaped(s, end);
    } else {
      AppendRowsFacts(s1, start, end);
      assert RowsChanged(s, end) == grown;
      forall k | 0 <= k < end ensures RowLabelOf(grown.rowLabels[k], k) {
        if k < start { assert grown.rowLabels[k] == grown.rowLabels[..start][k]; }
      }
    }
  }

  lemma RowsGrowBoxesShaped(s: GridState, end: nat)
    requires Shaped(s) && s.rows < end && s.columns > 0
    ensures Shaped(AddRowBoxes(AppendRows(s.(rows := end), s.rows, end), s.rows, end))
  {
    RowsChangedWellFormed(s, end);
    assert RowsChanged(s, end) == AddRowBoxes(AppendRows(s.(rows := end), s.rows, end), s.rows, end);
    RowsGrowBoxesPlaced(s, end);
    RowsGrowLabels(s, end);
  }

  lemma RowsGrowBoxesPlaced(s: GridState, end: nat)
    requires Shaped(s) && s.rows < end && s.columns > 0
    ensures var r := AddRowBoxes(AppendRows(s.(rows := end), s.rows, end), s.rows, end);
      && r.columns == s.columns && r.rows == end
      && |r.states| == s.columns && |r.checkBoxes| == s.columns
      && (forall c :: 0 <= c < s.columns ==> |r.states[c]| == end == |r.checkBoxes[c]|)
      && (forall c, k :: 0 <= c < s.columns && 0 <= k < end ==> PlacedAt(r.checkBoxes[c][k], c, k))
  {
    var start := s.rows;
    var s1 := s.(rows := end);
    AppendRowsFacts(s1, start, end);
    var grown := AppendRows(s1, start, end);
    FillCellsFacts(grown, 0, s.columns, start, end, true);
    var r := AddRowBoxes(grown, start, end);
    forall c, k | 0 <= c < s.columns && 0 <= k < end ensures PlacedAt(r.checkBoxes[c][k], c, k) {
      if k < start {
        assert r.checkBoxes[c][k] == r.checkBoxes[c][..start][k];
      }
    }
  }

  lemma RowsGrowLabels(s: GridState, end: nat)
    requires Shaped(s) && s.rows < end && s.columns > 0
    ensures var r := AddRowBoxes(AppendRows(s.(rows := end), s.rows, end), s.rows, end);
      && |r.rowLabels| == end && |r.columnLabels| == s.columns
      && (forall c :: 0 <= c < s.columns ==> ColumnLabelOf(r.columnLabels[c], c))
      && (forall k :: 0 <= k < end ==> RowLabelOf(r.rowLabels[k], k))
  {
    var start := s.rows;
    var s1 := s.(rows := end);
    AppendRowsFacts(s1, start, end);
    var grown := AppendRows(s1, start, end);
    FillCellsFacts(grown, 0, s.columns, start, end, true);
    var r := AddRowBoxes(grown, start, end);
    forall c | 0 <= c < s.columns ensures ColumnLabelOf(r.columnLabels[c], c) {
      assert ColumnLabelOf(s.columnLabels[c], c);
    }
    forall k | 0 <= k < end ensures RowLabelOf(r.rowLabels[k], k) {
      if k < start { assert r.rowLabels[k] == grown.rowLabels[..start][k]; }
    }
  }

  /** Shrinking the rows keeps the shape when there are columns, and breaks
      it when there are none: the early return leaves RowLabels and the row
      definitions at their old length. */
  lemma RowsShrinkShaped(s: GridState, end: nat)
    requires Shaped(s) && end < s.rows
    ensures Shaped(RowsChanged(s, end)) <==> s.columns > 0
    ensures s.columns == 0 ==> |RowsChanged(s, end).rowLabels| == s.rows
  {
    var start := s.rows;
    var s1 := s.(rows := end);
    if s.columns > 0 {
      assert RowsChanged(s, end) == RemoveRows(s1, start, end);
      RemoveRowsFacts(s1, start, end);
      RowsChangedWellFormed(s, end);
      var r := RemoveRows(s1, start, end);
      forall c, k | 0 <= c < s.columns && 0 <= k < end ensures PlacedAt(r.checkBoxes[c][k], c, k) {
        assert r.checkBoxes[c][k] == s.checkBoxes[c][k];
      }
      forall c | 0 <= c < s.columns ensures ColumnLabelOf(r.columnLabels[c], c) {
        assert ColumnLabelOf(s.columnLabels[c], c);
      }
    } else {
      assert RowsChanged(s, end) == s1;
    }
  }
}
