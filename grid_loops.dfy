/**
 * The loops of the handlers as folds of their one-pass bodies, and proofs
 * that each fold builds the block that GridSpec defines in closed form. The
 * imperative methods of CheckBoxGridControl keep the fold as their loop
 * invariant.
 */
module GridLoops {
  import opened Layout
  import opened GridSpec

  // ---------------------------------------------------------------------
  // The loops, one pass at a time

  /** The first loop of OnColumnsChanged, columns start+1..end. */
  function AppendColumnsLoop(s: GridState, start: nat, end: nat): GridState
    requires start <= end
    decreases end - start
  {
    if end == start then s else AppendColumn(AppendColumnsLoop(s, start, end - 1), end)
  }

  /** The first loop of OnRowsChanged, rows start+1..end. */
  function AppendRowsLoop(s: GridState, start: nat, end: nat): GridState
    requires start <= end
    decreases end - start
  {
    if end == start then s else AppendRow(AppendRowsLoop(s, start, end - 1), end)
  }

  /** The inner column-shrink loop for column i, boxes rows-1 down to lo. */
  function DropColumnBoxesLoop(s: GridState, i: nat, lo: nat): (r: GridState)
    requires i < |s.checkBoxes| && lo <= s.rows <= |s.checkBoxes[i]|
    ensures r == s.(children := r.children)
    decreases s.rows - lo
  {
    if lo == s.rows then s else Unparent(DropColumnBoxesLoop(s, i, lo + 1), s.checkBoxes[i][lo].handle)
  }

  /** The outer column-shrink loop, columns start-1 down to end. */
  function DropColumnsLoop(s: GridState, start: nat, end: nat): (r: GridState)
    requires end <= start <= |s.states|
    requires |s.checkBoxes| == |s.states| == |s.columnLabels| && |s.columnDefs| == |s.states| + 1
    requires 0 <= s.rows && forall c :: end <= c < start ==> s.rows <= |s.checkBoxes[c]|
    ensures r.rows == s.rows
    ensures |r.states| == |r.checkBoxes| == |r.columnLabels| == |s.states| - (start - end)
    ensures |r.columnDefs| == |r.states| + 1
    ensures r.checkBoxes[..end] == s.checkBoxes[..end]
    decreases start - end
  {
    if end == start then s else DropColumn(DropColumnsLoop(s, start, end + 1), end)
  }

  /** The inner row-shrink loop for column i, rows start-1 down to end. */
  function DropRowColumnLoop(s: GridState, i: nat, end: nat, start: nat): (r: GridState)
    requires i < |s.states| == |s.checkBoxes| && end <= start
    requires start <= |s.states[i]| && start <= |s.checkBoxes[i]|
    ensures |r.states| == |s.states| && |r.checkBoxes| == |s.checkBoxes|
    ensures |r.states[i]| == |s.states[i]| - (start - end) && |r.checkBoxes[i]| == |s.checkBoxes[i]| - (start - end)
    ensures r.states == s.states[i := r.states[i]] && r.checkBoxes == s.checkBoxes[i := r.checkBoxes[i]]
    decreases start - end
  {
    if end == start then s else RemoveRowCell(DropRowColumnLoop(s, i, end + 1, start), i, end)
  }

  /** The outer row-shrink loop, columns hi-1 down to lo. */
  function DropRowCellsLoop(s: GridState, lo: nat, hi: nat, end: nat, start: nat): (r: GridState)
    requires lo <= hi <= |s.states| == |s.checkBoxes| && end <= start
    requires forall c :: lo <= c < hi ==> start <= |s.states[c]| && start <= |s.checkBoxes[c]|
    ensures |r.states| == |s.states| && |r.checkBoxes| == |s.checkBoxes|
    ensures forall c :: 0 <= c < lo ==> r.states[c] == s.states[c] && r.checkBoxes[c] == s.checkBoxes[c]
    decreases hi - lo
  {
    if lo == hi then s else DropRowColumnLoop(DropRowCellsLoop(s, lo + 1, hi, end, start), lo, end, start)
  }

  /** The row-label loop of the rows shrink, rows start down to end + 1. */
  function DropRowLabelsLoop(s: GridState, start: nat, end: nat): (r: GridState)
    requires end <= start <= |s.rowLabels| && |s.rowDefs| == |s.rowLabels| + 1
    ensures |r.rowLabels| == |s.rowLabels| - (start - end) && |r.rowDefs| == |r.rowLabels| + 1
    decreases start - end
  {
    if end == start then s else DropRowLabel(DropRowLabelsLoop(s, start, end + 1), end + 1)
  }

  // ---------------------------------------------------------------------
  // Each pass against the closed form

  lemma AppendColumnStep(s: GridState, start: nat, end: nat)
    requires start < end
    ensures AppendColumns(s, start, end) == AppendColumn(AppendColumns(s, start, end - 1), end)
  {
    var i, n, h := end - 1, end - 1 - start, s.nextHandle;
    EmptyColumnsSnoc<bool>(n);
    SnocJoin(s.states, EmptyColumns(n), [], EmptyColumns(n + 1));
    EmptyColumnsSnoc<CheckBox>(n);
    SnocJoin(s.checkBoxes, EmptyColumns(n), [], EmptyColumns(n + 1));
    AutosSnoc(n);
    SnocJoin(s.columnDefs, Autos(n), Auto, Autos(n + 1));
    NewColumnLabelsSnoc(h, start, n);
    SnocJoin(s.columnLabels, NewColumnLabels(h, start, n), TextBlock(h + n, i + 1, i + 1, 0, Visible), NewColumnLabels(h, start, n + 1));
    AdoptNext(s.children, h, n);
  }

  lemma SnocJoin<T>(a: seq<T>, b: seq<T>, x: T, c: seq<T>)
    requires c == b + [x]
    ensures a + b + [x] == a + c
  {
  }

  lemma EmptyColumnsSnoc<T>(n: nat)
    ensures EmptyColumns<T>(n + 1) == EmptyColumns<T>(n) + [[]]
  {
  }

  lemma AutosSnoc(n: nat)
    ensures Autos(n + 1) == Autos(n) + [Auto]
  {
  }

  lemma NewColumnLabelsSnoc(h: Handle, start: int, n: nat)
    ensures NewColumnLabels(h, start, n + 1) == NewColumnLabels(h, start, n) + [TextBlock(h + n, start + n + 1, start + n + 1, 0, Visible)]
  {
  }

  lemma NewRowLabelsSnoc(h: Handle, start: int, n: nat)
    ensures NewRowLabels(h, start, n + 1) == NewRowLabels(h, start, n) + [TextBlock(h + n, start + n + 1, 0, start + n + 1, Visible)]
  {
  }

  /** Adopting a handle adds one occurrence of it to the children. */
  lemma AdoptAdds(children: multiset<Handle>, h: Handle)
    ensures Adopt(children, h) == children + multiset{h}
  {
  }

  /** Adopting the next handle extends a range of adopted handles. */
  lemma AdoptNext(children: multiset<Handle>, h: Handle, n: nat)
    ensures Adopt(children + multiset(Range(h, h + n)), h + n) == children + multiset(Range(h, h + n + 1))
  {
    assert Range(h, h + n + 1) == Range(h, h + n) + [h + n];
  }

  lemma AppendNoColumns(s: GridState, start: nat)
    ensures AppendColumns(s, start, start) == s
  {
    assert s.states + EmptyColumns(0) == s.states && s.checkBoxes + EmptyColumns(0) == s.checkBoxes;
    assert s.columnDefs + Autos(0) == s.columnDefs;
    assert s.columnLabels + [] == s.columnLabels;
  }

  lemma AppendNoRows(s: GridState, start: nat)
    ensures AppendRows(s, start, start) == s
  {
    assert s.rowDefs + Autos(0) == s.rowDefs;
    assert s.rowLabels + [] == s.rowLabels;
  }

  lemma AppendRowStep(s: GridState, start: nat, end: nat)
    requires start < end
    ensures AppendRows(s, start, end) == AppendRow(AppendRows(s, start, end - 1), end)
  {
    var i, n, h := end - 1, end - 1 - start, s.nextHandle;
    AutosSnoc(n);
    SnocJoin(s.rowDefs, Autos(n), Auto, Autos(n + 1));
    NewRowLabelsSnoc(h, start, n);
    SnocJoin(s.rowLabels, NewRowLabels(h, start, n), TextBlock(h + n, i + 1, 0, i + 1, Visible), NewRowLabels(h, start, n + 1));
    AdoptNext(s.children, h, n);
  }

  /** Removing entry i of a sequence already cut at i + 1..start. */
  lemma CutStep<T>(xs: seq<T>, i: nat, start: nat)
    requires i < start <= |xs|
    ensures var ys := Cut(xs, i + 1, start); ys[..i] + ys[i + 1..] == Cut(xs, i, start)
  {
    var ys := Cut(xs, i + 1, start);
    assert ys[..i] == xs[..i];
    assert ys[i + 1..] == xs[start..];
  }

  /** The shrink loops remove from the children one handle at a time; the
      result is the same as removing them all at once. */
  lemma SubtractInTurn(a: multiset<Handle>, b: multiset<Handle>, x: multiset<Handle>)
    ensures (a - b) - x == a - (x + b)
  {
    forall h ensures ((a - b) - x)[h] == (a - (x + b))[h] {
    }
  }

  /** One pass of the outer row-shrink loop: column i is cut as well. */
  lemma CutColumnsStep<T>(xs: seq<seq<T>>, i: nat, hi: nat, end: nat, start: nat)
    requires i < hi <= |xs| && end <= start
    requires forall c :: i <= c < hi ==> start <= |xs[c]|
    ensures CutColumns(xs, i + 1, hi, end, start)[i := Cut(xs[i], end, start)] == CutColumns(xs, i, hi, end, start)
  {
  }

  lemma BoxHandlesStep(xs: seq<CheckBox>, j: nat, hi: nat)
    requires j < hi <= |xs|
    ensures multiset(BoxHandles(xs[j..hi])) == multiset{xs[j].handle} + multiset(BoxHandles(xs[j + 1..hi]))
  {
    assert BoxHandles(xs[j..hi]) == [xs[j].handle] + BoxHandles(xs[j + 1..hi]);
  }

  lemma LabelHandlesStep(xs: seq<TextBlock>, j: nat, hi: nat)
    requires j < hi <= |xs|
    ensures multiset(LabelHandles(xs[j..hi])) == multiset{xs[j].handle} + multiset(LabelHandles(xs[j + 1..hi]))
  {
    assert LabelHandles(xs[j..hi]) == [xs[j].handle] + LabelHandles(xs[j + 1..hi]);
  }

  lemma DropNoColumns(s: GridState, start: nat)
    requires start <= |s.states|
    requires |s.checkBoxes| == |s.states| == |s.columnLabels| && |s.columnDefs| == |s.states| + 1
    requires 0 <= s.rows
    ensures DropColumns(s, start, start) == s
  {
    assert Cut(s.states, start, start) == s.states;
    assert Cut(s.checkBoxes, start, start) == s.checkBoxes;
    assert Cut(s.columnDefs, start, start) == s.columnDefs;
    assert Cut(s.columnLabels, start, start) == s.columnLabels;
  }

  /** One pass of the outer column-shrink loop extends the columns dropped
      so far by column i. */
  lemma DropColumnStep(s: GridState, start: nat, i: nat)
    requires i < start <= |s.states|
    requires |s.checkBoxes| == |s.states| == |s.columnLabels| && |s.columnDefs| == |s.states| + 1
    requires 0 <= s.rows && forall c :: i <= c < start ==> s.rows <= |s.checkBoxes[c]|
    ensures var t := DropColumns(s, start, i + 1);
      && i < |t.states| == |t.checkBoxes| == |t.columnLabels| && i < |t.columnDefs|
      && t.rows == s.rows && t.checkBoxes[i] == s.checkBoxes[i]
    ensures DropColumns(s, start, i) == DropColumn(DropColumns(s, start, i + 1), i)
  {
    var t := DropColumns(s, start, i + 1);
    CutStep(s.states, i, start);
    CutStep(s.checkBoxes, i, start);
    CutStep(s.columnDefs, i, start);
    CutStep(s.columnLabels, i, start);
    assert t.checkBoxes[i] == s.checkBoxes[i] && t.columnLabels[i] == s.columnLabels[i];
    var boxes := multiset(BoxHandles(s.checkBoxes[i][..s.rows]));
    var header := multiset{s.columnLabels[i].handle};
    var rest := RemovedColumnHandles(s, i + 1, start);
    SubtractInTurn(s.children, rest, boxes);
    SubtractInTurn(s.children, boxes + rest, header);
    assert RemovedColumnHandles(s, i, start) == header + (boxes + rest);
  }

  lemma DropNoRowCells(s: GridState, hi: nat, end: nat, start: nat)
    requires hi <= |s.states| == |s.checkBoxes| && end <= start
    ensures DropRowCells(s, hi, hi, end, start) == s
  {
    assert CutColumns(s.states, hi, hi, end, start) == s.states;
    assert CutColumns(s.checkBoxes, hi, hi, end, start) == s.checkBoxes;
  }

  /** One pass of the outer row-shrink loop extends the columns cut so far
      by column i. */
  lemma DropRowColumnStep(s: GridState, i: nat, hi: nat, end: nat, start: nat)
    requires i < hi <= |s.states| == |s.checkBoxes| && end <= start
    requires forall c :: i <= c < hi ==> start <= |s.states[c]| && start <= |s.checkBoxes[c]|
    ensures var t := DropRowCells(s, i + 1, hi, end, start);
      && |t.states| == |t.checkBoxes| == |s.states| && start <= |t.states[i]| && start <= |t.checkBoxes[i]|
    ensures DropRowCells(s, i, hi, end, start) == DropRowColumn(DropRowCells(s, i + 1, hi, end, start), i, end, start)
  {
    var t := DropRowCells(s, i + 1, hi, end, start);
    CutColumnsStep(s.states, i, hi, end, start);
    CutColumnsStep(s.checkBoxes, i, hi, end, start);
    assert t.checkBoxes[i] == s.checkBoxes[i];
    SubtractInTurn(s.children, RemovedRowBoxHandles(s, i + 1, hi, end, start), multiset(BoxHandles(s.checkBoxes[i][end..start])));
  }

  /** One pass of the inner column-shrink loop: box j of column i leaves the
      grid after boxes j+1..rows-1. */
  lemma DropColumnBoxStep(s: GridState, i: nat, j: nat)
    requires i < |s.checkBoxes| && j < s.rows <= |s.checkBoxes[i]|
    ensures DropColumnBoxes(s, i, j) == Unparent(DropColumnBoxes(s, i, j + 1), s.checkBoxes[i][j].handle)
  {
    BoxHandlesStep(s.checkBoxes[i], j, s.rows);
    SubtractInTurn(s.children, multiset(BoxHandles(s.checkBoxes[i][j + 1..s.rows])), multiset{s.checkBoxes[i][j].handle});
  }

  lemma DropNoColumnBoxes(s: GridState, i: nat)
    requires i < |s.checkBoxes| && 0 <= s.rows <= |s.checkBoxes[i]|
    ensures DropColumnBoxes(s, i, s.rows) == s
  {
    assert s.checkBoxes[i][s.rows..s.rows] == [];
  }

  /** One pass of the inner row-shrink loop: row j of column i goes after
      rows j+1..start-1. */
  lemma RemoveRowCellStep(s: GridState, i: nat, j: nat, start: nat)
    requires i < |s.states| == |s.checkBoxes| && j < start
    requires start <= |s.states[i]| && start <= |s.checkBoxes[i]|
    ensures var t := DropRowColumn(s, i, j + 1, start);
      && j < |t.states[i]| && j < |t.checkBoxes[i]| && t.checkBoxes[i][j] == s.checkBoxes[i][j]
    ensures DropRowColumn(s, i, j, start) == RemoveRowCell(DropRowColumn(s, i, j + 1, start), i, j)
  {
    CutStep(s.states[i], j, start);
    CutStep(s.checkBoxes[i], j, start);
    BoxHandlesStep(s.checkBoxes[i], j, start);
    SubtractInTurn(s.children, multiset(BoxHandles(s.checkBoxes[i][j + 1..start])), multiset{s.checkBoxes[i][j].handle});
  }

  lemma RemoveNoRowCells(s: GridState, i: nat, start: nat)
    requires i < |s.states| == |s.checkBoxes|
    requires start <= |s.states[i]| && start <= |s.checkBoxes[i]|
    ensures DropRowColumn(s, i, start, start) == s
  {
    assert Cut(s.states[i], start, start) == s.states[i];
    assert Cut(s.checkBoxes[i], start, start) == s.checkBoxes[i];
    assert s.checkBoxes[i][start..start] == [];
  }

  /** One pass of the row-label loop: label i goes after labels i+1..start. */
  lemma DropRowLabelStep(s: GridState, start: nat, i: nat)
    requires 1 <= i <= start <= |s.rowLabels| && |s.rowDefs| == |s.rowLabels| + 1
    ensures var t := DropRowLabels(s, start, i);
      && i <= |t.rowLabels| && i < |t.rowDefs| && t.rowLabels[i - 1] == s.rowLabels[i - 1]
    ensures DropRowLabels(s, start, i - 1) == DropRowLabel(DropRowLabels(s, start, i), i)
  {
    var t := DropRowLabels(s, start, i);
    var d := DropRowLabel(t, i);
    var e := DropRowLabels(s, start, i - 1);
    assert t.rowLabels[i - 1] == s.rowLabels[i - 1];
    CutStep(s.rowLabels, i - 1, start);
    assert d.rowLabels == e.rowLabels;
    CutStep(s.rowDefs, i, start + 1);
    assert d.rowDefs == e.rowDefs;
    LabelHandlesStep(s.rowLabels, i - 1, start);
    SubtractInTurn(s.children, multiset(LabelHandles(s.rowLabels[i..start])), multiset{s.rowLabels[i - 1].handle});
    assert d.children == e.children;
  }

  lemma DropNoRowLabels(s: GridState, start: nat)
    requires start <= |s.rowLabels| && |s.rowDefs| == |s.rowLabels| + 1
    ensures DropRowLabels(s, start, start) == s
  {
    assert Cut(s.rowLabels, start, start) == s.rowLabels;
    assert Cut(s.rowDefs, start + 1, start + 1) == s.rowDefs;
    assert s.rowLabels[start..start] == [];
  }

  // ---------------------------------------------------------------------
  // Each loop builds its closed-form block

  lemma {:induction false} AppendColumnsLoopBlock(s: GridState, start: nat, end: nat)
    requires start <= end
    ensures AppendColumnsLoop(s, start, end) == AppendColumns(s, start, end)
    decreases end - start
  {
    if end == start {
      AppendNoColumns(s, start);
    } else {
      AppendColumnsLoopBlock(s, start, end - 1);
      AppendColumnsLoopExtend(s, start, end);
    }
  }

  lemma AppendColumnsLoopExtend(s: GridState, start: nat, end: nat)
    requires start < end
    requires AppendColumnsLoop(s, start, end - 1) == AppendColumns(s, start, end - 1)
    ensures AppendColumnsLoop(s, start, end) == AppendColumns(s, start, end)
  {
    AppendColumnStep(s, start, end);
    AppendColumnAlike(AppendColumnsLoop(s, start, end - 1), AppendColumns(s, start, end - 1), end);
  }

  lemma AppendColumnAlike(t: GridState, u: GridState, i: int)
    requires t == u
    ensures AppendColumn(t, i) == AppendColumn(u, i)
  {
  }

  lemma {:induction false} AppendRowsLoopBlock(s: GridState, start: nat, end: nat)
    requires start <= end
    ensures AppendRowsLoop(s, start, end) == AppendRows(s, start, end)
    decreases end - start
  {
    if end == start {
      AppendNoRows(s, start);
    } else {
      AppendRowsLoopBlock(s, start, end - 1);
      AppendRowsLoopExtend(s, start, end);
    }
  }

  lemma AppendRowsLoopExtend(s: GridState, start: nat, end: nat)
    requires start < end
    requires AppendRowsLoop(s, start, end - 1) == AppendRows(s, start, end - 1)
    ensures AppendRowsLoop(s, start, end) == AppendRows(s, start, end)
  {
    AppendRowStep(s, start, end);
    AppendRowAlike(AppendRowsLoop(s, start, end - 1), AppendRows(s, start, end - 1), end);
  }

  lemma AppendRowAlike(t: GridState, u: GridState, i: int)
    requires t == u
    ensures AppendRow(t, i) == AppendRow(u, i)
  {
  }

  lemma {:induction false} DropColumnBoxesLoopBlock(s: GridState, i: nat, lo: nat)
    requires i < |s.checkBoxes| && lo <= s.rows <= |s.checkBoxes[i]|
    ensures DropColumnBoxesLoop(s, i, lo) == DropColumnBoxes(s, i, lo)
    decreases s.rows - lo
  {
    if lo == s.rows {
      DropNoColumnBoxes(s, i);
    } else {
      DropColumnBoxesLoopBlock(s, i, lo + 1);
      DropColumnBoxStep(s, i, lo);
    }
  }

  lemma {:induction false} DropColumnsLoopBlock(s: GridState, start: nat, end: nat)
    requires end <= start <= |s.states|
    requires |s.checkBoxes| == |s.states| == |s.columnLabels| && |s.columnDefs| == |s.states| + 1
    requires 0 <= s.rows && forall c :: end <= c < start ==> s.rows <= |s.checkBoxes[c]|
    ensures DropColumnsLoop(s, start, end) == DropColumns(s, start, end)
    decreases start - end
  {
    if end == start {
      DropNoColumns(s, start);
    } else {
      DropColumnsLoopBlock(s, start, end + 1);
      DropColumnStep(s, start, end);
    }
  }

  lemma {:induction false} DropRowColumnLoopBlock(s: GridState, i: nat, end: nat, start: nat)
    requires i < |s.states| == |s.checkBoxes| && end <= start
    requires start <= |s.states[i]| && start <= |s.checkBoxes[i]|
    ensures DropRowColumnLoop(s, i, end, start) == DropRowColumn(s, i, end, start)
    decreases start - end
  {
    if end == start {
      RemoveNoRowCells(s, i, start);
    } else {
      DropRowColumnLoopBlock(s, i, end + 1, start);
      RemoveRowCellStep(s, i, end, start);
    }
  }

  /** The outer row-shrink loop reaches column lo with that column as it was
      and takes one more pass there. */
  lemma DropRowCellsLoopNext(s: GridState, lo: nat, hi: nat, end: nat, start: nat)
    requires lo < hi <= |s.states| == |s.checkBoxes| && end <= start
    requires forall c :: lo <= c < hi ==> start <= |s.states[c]| && start <= |s.checkBoxes[c]|
    ensures var t := DropRowCellsLoop(s, lo + 1, hi, end, start);
      && |t.states| == |t.checkBoxes| == |s.states|
      && t.states[lo] == s.states[lo] && t.checkBoxes[lo] == s.checkBoxes[lo]
      && DropRowColumnLoop(t, lo, end, start) == DropRowCellsLoop(s, lo, hi, end, start)
  {
  }

  /** One pass of the outer row-shrink loop, run as the inner loop, extends
      the closed-form cut by column lo. */
  lemma DropRowCellsPass(s: GridState, lo: nat, hi: nat, end: nat, start: nat)
    requires lo < hi <= |s.states| == |s.checkBoxes| && end <= start
    requires forall c :: lo <= c < hi ==> start <= |s.states[c]| && start <= |s.checkBoxes[c]|
    ensures var u := DropRowCells(s, lo + 1, hi, end, start);
      && |u.states| == |u.checkBoxes| == |s.states| && start <= |u.states[lo]| && start <= |u.checkBoxes[lo]|
      && DropRowColumnLoop(u, lo, end, start) == DropRowCells(s, lo, hi, end, start)
  {
    var u := DropRowCells(s, lo + 1, hi, end, start);
    DropRowColumnStep(s, lo, hi, end, start);
    DropRowColumnLoopBlock(u, lo, end, start);
  }

  /** Once the loop agrees with the closed form from column lo + 1 on, it
      agrees from column lo on. */
  lemma DropRowCellsLoopExtend(s: GridState, lo: nat, hi: nat, end: nat, start: nat)
    requires lo < hi <= |s.states| == |s.checkBoxes| && end <= start
    requires forall c :: lo <= c < hi ==> start <= |s.states[c]| && start <= |s.checkBoxes[c]|
    requires DropRowCellsLoop(s, lo + 1, hi, end, start) == DropRowCells(s, lo + 1, hi, end, start)
    ensures DropRowCellsLoop(s, lo, hi, end, start) == DropRowCells(s, lo, hi, end, start)
  {
    DropRowCellsLoopNext(s, lo, hi, end, start);
    DropRowCellsPass(s, lo, hi, end, start);
  }

  lemma {:induction false} DropRowCellsLoopBlock(s: GridState, lo: nat, hi: nat, end: nat, start: nat)
    requires lo <= hi <= |s.states| == |s.checkBoxes| && end <= start
    requires forall c :: lo <= c < hi ==> start <= |s.states[c]| && start <= |s.checkBoxes[c]|
    ensures DropRowCellsLoop(s, lo, hi, end, start) == DropRowCells(s, lo, hi, end, start)
    decreases hi - lo
  {
    if lo == hi {
      DropNoRowCells(s, hi, end, start);
    } else {
      DropRowCellsLoopBlock(s, lo + 1, hi, end, start);
      DropRowCellsLoopExtend(s, lo, hi, end, start);
    }
  }

  lemma {:induction false} DropRowLabelsLoopBlock(s: GridState, start: nat, end: nat)
    requires end <= start <= |s.rowLabels| && |s.rowDefs| == |s.rowLabels| + 1
    ensures DropRowLabelsLoop(s, start, end) == DropRowLabels(s, start, end)
    decreases start - end
  {
    if end == start {
      DropNoRowLabels(s, start);
    } else {
      DropRowLabelsLoopBlock(s, start, end + 1);
      DropRowLabelStep(s, start, end + 1);
    }
  }
}
