/**
 * Sequences of property sets, starting from the freshly constructed control.
 * Every run keeps WellFormed; a run from a shaped control keeps the shape
 * invariant exactly when it never shrinks one dimension while the other is
 * 0, and while it does, grid.Children holds exactly the control's boxes and
 * labels.
 */
module GridRuns {
  import opened Layout
  import opened GridSpec
  import opened GridLemmas
  import opened GridProperties
  import opened GridChildren

  /** One call of a public property setter. */
  datatype Setter =
    | SetColumnsTo(columns: int)
    | SetRowsTo(rows: int)
    | SetSpacingTo(spacing: Thickness)
    | SetShowLabelsTo(show: bool)

  function Apply(s: GridState, op: Setter): (r: GridState)
    requires WellFormed(s)
    ensures WellFormed(r)
  {
    match op
    case SetColumnsTo(v) =>
      if v >= 0 then ColumnsChangedWellFormed(s, v); SetColumns(s, v) else SetColumns(s, v)
    case SetRowsTo(v) =>
      if v >= 0 then RowsChangedWellFormed(s, v); SetRows(s, v) else SetRows(s, v)
    case SetSpacingTo(t) => SpacingChanged(s, t)
    case SetShowLabelsTo(v) => ShowLabelsChanged(s, v)
  }

  function Run(s: GridState, ops: seq<Setter>): (r: GridState)
    requires WellFormed(s)
    ensures WellFormed(r)
    decreases |ops|
  {
    if ops == [] then s else Run(Apply(s, ops[0]), ops[1..])
  }

  /** The one kind of call that loses the shape: shrinking a dimension while
      the other one is 0. */
  predicate ShrinksAgainstEmpty(s: GridState, op: Setter) {
    match op
    case SetColumnsTo(v) => 0 <= v < s.columns && s.rows == 0
    case SetRowsTo(v) => 0 <= v < s.rows && s.columns == 0
    case _ => false
  }

  predicate NeverShrinksAgainstEmpty(s: GridState, ops: seq<Setter>)
    requires WellFormed(s)
    decreases |ops|
  {
    ops == [] || (!ShrinksAgainstEmpty(s, ops[0]) && NeverShrinksAgainstEmpty(Apply(s, ops[0]), ops[1..]))
  }

  /** A single setter call keeps the shape if and only if it does not shrink
      one dimension while the other is 0. */
  lemma ApplyShaped(s: GridState, op: Setter)
    requires Shaped(s)
    ensures Shaped(Apply(s, op)) <==> !ShrinksAgainstEmpty(s, op)
  {
    match op
    case SetColumnsTo(v) =>
      if v > s.columns { ColumnsGrowShaped(s, v); }
      else if 0 <= v < s.columns { ColumnsShrinkShaped(s, v); }
      else if v == s.columns { assert ColumnsChanged(s, v) == s; }
    case SetRowsTo(v) =>
      if v > s.rows { RowsGrowShaped(s, v); }
      else if 0 <= v < s.rows { RowsShrinkShaped(s, v); }
      else if v == s.rows { assert RowsChanged(s, v) == s; }
    case SetSpacingTo(t) =>
      var r := SpacingChanged(s, t);
      assert forall c, k :: 0 <= c < s.columns && 0 <= k < s.rows ==>
        r.checkBoxes[c][k] == s.checkBoxes[c][k].(margin := t);
    case SetShowLabelsTo(v) =>
  }

  lemma {:induction false} RunShaped(s: GridState, ops: seq<Setter>)
    requires Shaped(s) && NeverShrinksAgainstEmpty(s, ops)
    ensures Shaped(Run(s, ops))
    decreases |ops|
  {
    if ops != [] {
      ApplyShaped(s, ops[0]);
      RunShaped(Apply(s, ops[0]), ops[1..]);
    }
  }

  /** One setter call on a shaped control keeps grid.Children equal to the
      control's boxes and labels. */
  lemma ApplyMatch(s: GridState, op: Setter)
    requires Shaped(s) && ChildrenMatch(s)
    ensures ChildrenMatch(Apply(s, op))
  {
    match op
    case SetColumnsTo(v) =>
      if v >= 0 { ColumnsChangedMatch(s, v); }
    case SetRowsTo(v) =>
      if v >= 0 { RowsChangedMatch(s, v); }
    case SetSpacingTo(t) => SpacingMatch(s, t);
    case SetShowLabelsTo(v) =>
  }

  lemma {:induction false} RunMatch(s: GridState, ops: seq<Setter>)
    requires Shaped(s) && ChildrenMatch(s) && NeverShrinksAgainstEmpty(s, ops)
    ensures ChildrenMatch(Run(s, ops))
    decreases |ops|
  {
    if ops != [] {
      ApplyShaped(s, ops[0]);
      ApplyMatch(s, ops[0]);
      RunMatch(Apply(s, ops[0]), ops[1..]);
    }
  }

  /** From construction, any sequence of setter calls that never shrinks a
      dimension while the other is 0 leaves columns x rows states and boxes,
      one label per column and per row, every box at its own cell, and
      exactly those boxes and labels as the grid's children. */
  lemma ReachableShaped(ops: seq<Setter>)
    requires NeverShrinksAgainstEmpty(Initial, ops)
    ensures var r := Run(Initial, ops);
      && |r.states| == |r.checkBoxes| == |r.columnLabels| == r.columns
      && |r.rowLabels| == r.rows && |r.columnDefs| == r.columns + 1 && |r.rowDefs| == r.rows + 1
      && (forall c :: 0 <= c < r.columns ==> |r.states[c]| == |r.checkBoxes[c]| == r.rows)
      && (forall c, k :: 0 <= c < r.columns && 0 <= k < r.rows ==> PlacedAt(r.checkBoxes[c][k], c, k))
      && r.children == Handles(r)
  {
    InitialShaped();
    RunShaped(Initial, ops);
    assert ChildrenMatch(Initial);
    RunMatch(Initial, ops);
  }

  // ---------------------------------------------------------------------
  // Losing the shape for good

  /** How far the collections are ahead of the stored counts: the columns
      and row labels an early return left behind. */
  function Slack(s: GridState): (r: nat)
    requires WellFormed(s)
    ensures Shaped(s) ==> r == 0
  {
    (|s.states| - s.columns) + (|s.rowLabels| - s.rows)
  }

  /** A columns change leaves the collections ahead of the count by as much
      as before, or by more when it shrinks against no rows. */
  lemma ColumnsChangedSlack(s: GridState, end: nat)
    requires WellFormed(s)
    ensures var r := ColumnsChanged(s, end);
      && r.columns == end && r.rows == s.rows && |r.rowLabels| == |s.rowLabels|
      && |r.states| == (if s.rows == 0 && end < s.columns then |s.states| else |s.states| + end - s.columns)
  {
    var s1 := s.(columns := end);
    if s.columns < end {
      AppendColumnsFacts(s1, s.columns, end);
      FillCellsFrame(AppendColumns(s1, s.columns, end), s.columns, end, 0, s.rows, false);
    } else if end < s.columns && s.rows > 0 {
      RemoveColumnsFacts(s1, s.columns, end);
    }
  }

  lemma RowsChangedSlack(s: GridState, end: nat)
    requires WellFormed(s)
    ensures var r := RowsChanged(s, end);
      && r.rows == end && r.columns == s.columns && |r.states| == |s.states|
      && |r.rowLabels| == (if s.columns == 0 && end < s.rows then |s.rowLabels| else |s.rowLabels| + end - s.rows)
  {
    var s1 := s.(rows := end);
    if s.rows < end {
      AppendRowsFacts(s1, s.rows, end);
      if s.columns > 0 {
        FillCellsFrame(AppendRows(s1, s.rows, end), 0, s.columns, s.rows, end, true);
      }
    } else if end < s.rows && s.columns > 0 {
      RemoveRowsFacts(s1, s.rows, end);
    }
  }

  /** No setter call brings the collections back to the counts, and a shrink
      against an empty dimension puts them further ahead. */
  lemma ApplySlack(s: GridState, op: Setter)
    requires WellFormed(s)
    ensures Slack(Apply(s, op)) >= Slack(s)
    ensures ShrinksAgainstEmpty(s, op) ==> Slack(Apply(s, op)) > Slack(s)
  {
    match op
    case SetColumnsTo(v) =>
      if v >= 0 { ColumnsChangedSlack(s, v); }
    case SetRowsTo(v) =>
      if v >= 0 { RowsChangedSlack(s, v); }
    case SetSpacingTo(t) =>
    case SetShowLabelsTo(v) =>
  }

  lemma {:induction false} RunSlack(s: GridState, ops: seq<Setter>)
    requires WellFormed(s)
    ensures Slack(Run(s, ops)) >= Slack(s)
    ensures !NeverShrinksAgainstEmpty(s, ops) ==> Slack(Run(s, ops)) > Slack(s)
    decreases |ops|
  {
    if ops != [] {
      ApplySlack(s, ops[0]);
      RunSlack(Apply(s, ops[0]), ops[1..]);
    }
  }

  /** A run from a shaped control ends shaped if and only if it never
      shrinks a dimension while the other is 0; in particular every state
      reached from construction is shaped exactly after such runs. */
  lemma RunShapedIff(s: GridState, ops: seq<Setter>)
    requires Shaped(s)
    ensures Shaped(Run(s, ops)) <==> NeverShrinksAgainstEmpty(s, ops)
  {
    if NeverShrinksAgainstEmpty(s, ops) {
      RunShaped(s, ops);
    } else {
      RunSlack(s, ops);
    }
  }

  /** The condition is needed: Columns = n then Columns = m < n with no
      rows leaves n state columns behind for m columns. */
  lemma ShrinkAgainstEmptyLosesShape(n: nat, m: nat)
    requires m < n
    ensures var r := Run(Initial, [SetColumnsTo(n), SetColumnsTo(m)]);
      r.columns == m && |r.states| == n && |r.columnLabels| == n && !Shaped(r)
  {
    var s0 := Initial.(columns := n);
    var s1 := AppendColumns(s0, 0, n);
    AppendColumnsFacts(s0, 0, n);
    assert ColumnsChanged(Initial, n) == s1;
    assert Apply(Initial, SetColumnsTo(n)) == s1;
    var s2 := s1.(columns := m);
    assert ColumnsChanged(s1, m) == s2;
    assert Apply(s1, SetColumnsTo(m)) == s2;
    var ops := [SetColumnsTo(n), SetColumnsTo(m)];
    assert ops[1..] == [SetColumnsTo(m)];
    assert Run(s1, [SetColumnsTo(m)]) == Run(s2, []);
  }

  /** The column definitions lose their entries at 0-based indices, the row
      definitions at 1-based ones. So with the labels hidden, shrinking the
      columns to 0 removes the zero-width header column definition and
      leaves the last column's auto-sized one in its place, while the header
      row definition stays zero high. */
  lemma HiddenHeaderColumnDropped(rows: nat, columns: nat)
    requires rows > 0 && columns > 0
    ensures var r := Run(Initial, [SetShowLabelsTo(false), SetRowsTo(rows), SetColumnsTo(columns), SetColumnsTo(0)]);
      !r.showLabels && r.columnDefs == [Auto] && r.rowDefs[0] == ZeroPixels
  {
    InitialShaped();
    RunFour(Initial, SetShowLabelsTo(false), SetRowsTo(rows), SetColumnsTo(columns), SetColumnsTo(0));
    var s2 := HiddenLabelsRows(rows);
    var s3 := Apply(s2, SetColumnsTo(columns));
    ColumnsAddedToNone(s2, columns);
    assert s3.columnDefs[columns] == Autos(columns)[columns - 1] == Auto;
    ColumnsShrinkRemoves(s3, 0);
  }

  /** ShowLabels = false, then Rows = rows. */
  lemma HiddenLabelsRows(rows: nat) returns (s2: GridState)
    requires rows > 0
    ensures WellFormed(Initial) && WellFormed(Apply(Initial, SetShowLabelsTo(false)))
    ensures s2 == Apply(Apply(Initial, SetShowLabelsTo(false)), SetRowsTo(rows))
    ensures Shaped(s2) && s2.columns == 0 && s2.rows == rows && !s2.showLabels
    ensures s2.columnDefs == [ZeroPixels] && s2.rowDefs[0] == ZeroPixels
  {
    InitialShaped();
    var s1 := Apply(Initial, SetShowLabelsTo(false));
    ApplyShaped(Initial, SetShowLabelsTo(false));
    s2 := Apply(s1, SetRowsTo(rows));
    ApplyShaped(s1, SetRowsTo(rows));
    assert s2 == AppendRows(s1.(rows := rows), 0, rows);
  }

  /** Four calls in a row. */
  lemma RunFour(s: GridState, a: Setter, b: Setter, c: Setter, d: Setter)
    requires WellFormed(s)
    ensures Run(s, [a, b, c, d]) == Apply(Apply(Apply(Apply(s, a), b), c), d)
  {
    var s1 := Apply(s, a);
    var s2 := Apply(s1, b);
    var s3 := Apply(s2, c);
    RunCons(s, a, [b, c, d]);
    RunCons(s1, b, [c, d]);
    RunCons(s2, c, [d]);
    assert Run(s3, [d]) == Run(Apply(s3, d), []);
  }

  /** Columns = columns on a shaped control with no columns: the header
      column definition is kept and auto-sized ones follow it. */
  lemma ColumnsAddedToNone(s: GridState, columns: nat)
    requires Shaped(s) && s.columns == 0 && s.rows > 0 && columns > 0
    ensures var r := Apply(s, SetColumnsTo(columns));
      && Shaped(r) && r.columns == columns && r.rows == s.rows && r.showLabels == s.showLabels
      && r.columnDefs == s.columnDefs + Autos(columns) && r.rowDefs == s.rowDefs
  {
    ApplyShaped(s, SetColumnsTo(columns));
    var grown := AppendColumns(s.(columns := columns), 0, columns);
    FillCellsFrame(grown, 0, columns, 0, s.rows, false);
  }

  lemma RunCons(s: GridState, op: Setter, rest: seq<Setter>)
    requires WellFormed(s)
    ensures Run(s, [op] + rest) == Run(Apply(s, op), rest)
  {
    assert ([op] + rest)[1..] == rest;
  }
}
