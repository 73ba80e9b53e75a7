/**
 * The CheckBoxGrid control as a value: every field the control and its host
 * grid keep, and one function per block of each property-changed handler,
 * written as the state that block leaves behind.
 *
 * Matrices are indexed [column][row]. The host grid's column and row
 * definitions carry the header definition at index 0, so data column c
 * (0-based) is definition c + 1 while the grid keeps its shape.
 */
module GridSpec {
  import opened Layout

  datatype GridState = GridState(
    columns: int,                      // _columns
    rows: int,                         // _rows
    showLabels: bool,                  // _showLabels
    spacing: Thickness,                // _spacing
    states: seq<seq<bool>>,            // States[column][row]
    checkBoxes: seq<seq<CheckBox>>,    // CheckBoxes[column][row]
    columnLabels: seq<TextBlock>,      // ColumnLabels
    rowLabels: seq<TextBlock>,         // RowLabels
    columnDefs: seq<GridLength>,       // grid.ColumnDefinitions (widths)
    rowDefs: seq<GridLength>,          // grid.RowDefinitions (heights)
    children: multiset<Handle>,        // grid.Children
    nextHandle: Handle)                // next identity to hand out

  /** The control right after construction: no cells, and a host grid that
      holds only its auto-sized header column and header row. */
  const Initial: GridState :=
    GridState(0, 0, true, DefaultSpacing, [], [], [], [], [Auto], [Auto], multiset{}, 0)

  /** The invariant every reachable state keeps, whatever the order of the
      setter calls: every index the handlers use is in range. */
  predicate WellFormed(s: GridState) {
    && 0 <= s.columns <= |s.states|
    && |s.checkBoxes| == |s.states|
    && |s.columnLabels| == |s.states|
    && |s.columnDefs| == |s.states| + 1
    && 0 <= s.rows <= |s.rowLabels|
    && |s.rowDefs| == |s.rowLabels| + 1
    && (forall c :: 0 <= c < |s.states| ==> |s.checkBoxes[c]| == |s.states[c]|)
    && (forall c :: 0 <= c < s.columns ==> s.rows <= |s.states[c]|)
  }

  /** Box b is the box of cell (c, r): placed at grid (c + 1, r + 1) and bound
      to States[c][r]. */
  predicate PlacedAt(b: CheckBox, c: int, r: int) {
    b.gridColumn == c + 1 && b.gridRow == r + 1 && b.binding == Some(Cell(c, r))
  }

  predicate ColumnLabelOf(l: TextBlock, c: int) {
    l.text == c + 1 && l.gridColumn == c + 1 && l.gridRow == 0
  }

  predicate RowLabelOf(l: TextBlock, r: int) {
    l.text == r + 1 && l.gridColumn == 0 && l.gridRow == r + 1
  }

  /** The shape the control is meant to keep: columns x rows states and
      boxes, one label per column and per row, every box and label at its own
      position and every box bound to its own cell. */
  predicate Shaped(s: GridState) {
    && WellFormed(s)
    && |s.states| == s.columns
    && |s.rowLabels| == s.rows
    && (forall c :: 0 <= c < s.columns ==> |s.states[c]| == s.rows)
    && (forall c, r :: 0 <= c < s.columns && 0 <= r < s.rows ==> PlacedAt(s.checkBoxes[c][r], c, r))
    && (forall c :: 0 <= c < s.columns ==> ColumnLabelOf(s.columnLabels[c], c))
    && (forall r :: 0 <= r < s.rows ==> RowLabelOf(s.rowLabels[r], r))
  }

  // ---------------------------------------------------------------------
  // Sequence helpers

  function Falses(n: nat): (r: seq<bool>)
    ensures |r| == n && forall k :: 0 <= k < n ==> !r[k]
  {
    seq(n, _ => false)
  }

  function EmptyColumns<T>(n: nat): (r: seq<seq<T>>)
    ensures |r| == n && forall k :: 0 <= k < n ==> r[k] == []
  {
    seq(n, _ => [])
  }

  function Autos(n: nat): (r: seq<GridLength>)
    ensures |r| == n && forall k :: 0 <= k < n ==> r[k] == Auto
  {
    seq(n, _ => Auto)
  }

  /** xs without the entries at lo..hi-1. */
  function Cut<T>(xs: seq<T>, lo: nat, hi: nat): (r: seq<T>)
    requires lo <= hi <= |xs|
    ensures |r| == |xs| - (hi - lo)
  {
    xs[..lo] + xs[hi..]
  }

  /** Every column lo..hi-1 of a matrix without its entries at rows end..start-1. */
  function CutColumns<T>(xs: seq<seq<T>>, lo: nat, hi: nat, end: nat, start: nat): (r: seq<seq<T>>)
    requires lo <= hi <= |xs| && end <= start
    requires forall c :: lo <= c < hi ==> start <= |xs[c]|
    ensures |r| == |xs|
  {
    seq(|xs|, c requires 0 <= c < |xs| => if lo <= c < hi then Cut(xs[c], end, start) else xs[c])
  }

  /** The handles lo, lo + 1, ..., hi - 1. */
  function Range(lo: nat, hi: nat): (r: seq<Handle>)
    requires lo <= hi
    ensures |r| == hi - lo
  {
    seq(hi - lo, k => lo + k)
  }

  function BoxHandles(boxes: seq<CheckBox>): (r: seq<Handle>)
    ensures |r| == |boxes| && forall k :: 0 <= k < |r| ==> r[k] == boxes[k].handle
  {
    seq(|boxes|, k requires 0 <= k < |boxes| => boxes[k].handle)
  }

  function LabelHandles(labels: seq<TextBlock>): (r: seq<Handle>)
    ensures |r| == |labels| && forall k :: 0 <= k < |r| ==> r[k] == labels[k].handle
  {
    seq(|labels|, k requires 0 <= k < |labels| => labels[k].handle)
  }

  /** The handles of the boxes at rows `from` onwards, column after column. */
  function CellHandles(cols: seq<seq<CheckBox>>, from: nat): multiset<Handle>
    requires forall c :: 0 <= c < |cols| ==> from <= |cols[c]|
    decreases |cols|
  {
    if cols == [] then multiset{}
    else multiset(BoxHandles(cols[0][from..])) + CellHandles(cols[1..], from)
  }

  /** Every box and label the control keeps in its own collections: what
      grid.Children should hold. */
  function Handles(s: GridState): multiset<Handle> {
    CellHandles(s.checkBoxes, 0) + multiset(LabelHandles(s.columnLabels)) + multiset(LabelHandles(s.rowLabels))
  }

  /** Every label of the group set to the same visibility. */
  function WithVisibility(labels: seq<TextBlock>, v: Visibility): (r: seq<TextBlock>)
    ensures |r| == |labels|
    ensures forall k :: 0 <= k < |r| ==> r[k] == labels[k].(visibility := v)
  {
    seq(|labels|, k requires 0 <= k < |labels| => labels[k].(visibility := v))
  }

  /** Every box's margin replaced by m. */
  function WithMargin(boxes: seq<seq<CheckBox>>, m: Thickness): (r: seq<seq<CheckBox>>)
    ensures |r| == |boxes|
    ensures forall c :: 0 <= c < |r| ==> |r[c]| == |boxes[c]|
    ensures forall c, k :: 0 <= c < |r| && 0 <= k < |r[c]| ==> r[c][k] == boxes[c][k].(margin := m)
  {
    seq(|boxes|, c requires 0 <= c < |boxes| =>
      seq(|boxes[c]|, k requires 0 <= k < |boxes[c]| => boxes[c][k].(margin := m)))
  }

  // ---------------------------------------------------------------------
  // Creating boxes

  /** The box the grow loops create for cell (c, r): grid (c + 1, r + 1),
      bound two-way to States[c][r]. */
  function NewBox(h: Handle, c: int, r: int, m: Thickness, subscribed: bool): CheckBox {
    CheckBox(h, c + 1, r + 1, m, Some(Cell(c, r)), subscribed)
  }

  /** The boxes for rows rlo..rlo+n-1 of column c, with handles h, h+1, .... */
  function NewBoxes(h: Handle, c: int, rlo: int, n: nat, m: Thickness, subscribed: bool): (r: seq<CheckBox>)
    ensures |r| == n
    ensures forall k :: 0 <= k < n ==> r[k] == NewBox(h + k, c, rlo + k, m, subscribed)
  {
    seq(n, k requires 0 <= k < n => NewBox(h + k, c, rlo + k, m, subscribed))
  }

  /** grid.Children.Add(h): one more occurrence of h among the children. */
  function Adopt(children: multiset<Handle>, h: Handle): multiset<Handle> {
    children[h := children[h] + 1]
  }

  /** One pass of a grow loop's body: a false state and a fresh box for cell
      (c, r), appended to column c and added to the grid's children. */
  function AddBox(s: GridState, c: nat, r: int, subscribed: bool): GridState
    requires c < |s.states| == |s.checkBoxes|
  {
    s.(states := s.states[c := s.states[c] + [false]],
       checkBoxes := s.checkBoxes[c := s.checkBoxes[c] + [NewBox(s.nextHandle, c, r, s.spacing, subscribed)]],
       children := Adopt(s.children, s.nextHandle),
       nextHandle := s.nextHandle + 1)
  }

  /** The inner grow loop: the boxes of rows lo..hi-1 of column c, in order. */
  function FillColumn(s: GridState, c: nat, lo: nat, hi: nat, subscribed: bool): (r: GridState)
    requires c < |s.states| == |s.checkBoxes| && lo <= hi
    ensures |r.states| == |r.checkBoxes| == |s.states| && r.rows == s.rows && r.columns == s.columns
    decreases hi - lo
  {
    if hi == lo then s else AddBox(FillColumn(s, c, lo, hi - 1, subscribed), c, hi - 1, subscribed)
  }

  /** The nested grow loop over columns clo..chi-1 (outer) and rows
      rlo..rhi-1 (inner). */
  function FillCells(s: GridState, clo: nat, chi: nat, rlo: nat, rhi: nat, subscribed: bool): (r: GridState)
    requires clo <= chi <= |s.states| == |s.checkBoxes| && rlo <= rhi
    ensures |r.states| == |r.checkBoxes| == |s.states| && r.rows == s.rows && r.columns == s.columns
    decreases chi - clo
  {
    if chi == clo then s
    else FillColumn(FillCells(s, clo, chi - 1, rlo, rhi, subscribed), chi - 1, rlo, rhi, subscribed)
  }

  // ---------------------------------------------------------------------
  // Columns

  /** One pass of the first loop of OnColumnsChanged, for column number i. */
  function AppendColumn(s: GridState, i: int): GridState {
    s.(states := s.states + [[]], checkBoxes := s.checkBoxes + [[]], columnDefs := s.columnDefs + [Auto],
       columnLabels := s.columnLabels + [TextBlock(s.nextHandle, i, i, 0, Visible)],
       children := Adopt(s.children, s.nextHandle), nextHandle := s.nextHandle + 1)
  }

  /** Visible labels "start+1".."start+n" at grid (start+1, 0)..(start+n, 0),
      with handles h, h+1, .... */
  function NewColumnLabels(h: Handle, start: int, n: nat): (r: seq<TextBlock>)
    ensures |r| == n
  {
    seq(n, k requires 0 <= k < n => TextBlock(h + k, start + k + 1, start + k + 1, 0, Visible))
  }

  /** The first loop of OnColumnsChanged: for each new column number
      i = start+1..end, an empty state column and box column, an auto-sized
      column definition and a visible label "i" at grid (i, 0). */
  function AppendColumns(s: GridState, start: nat, end: nat): (r: GridState)
    requires start <= end
    ensures r.columns == s.columns && r.rows == s.rows && r.rowLabels == s.rowLabels
    ensures |r.states| == |s.states| + (end - start) && |r.columnLabels| == |s.columnLabels| + (end - start)
    ensures r.nextHandle == s.nextHandle + (end - start)
  {
    var n := end - start;
    var h := s.nextHandle;
    s.(states := s.states + EmptyColumns(n),
       checkBoxes := s.checkBoxes + EmptyColumns(n),
       columnDefs := s.columnDefs + Autos(n),
       columnLabels := s.columnLabels + NewColumnLabels(h, start, n),
       children := s.children + multiset(Range(h, h + n)),
       nextHandle := h + n)
  }

  /** Everything the column-shrink loop takes out of the grid's children:
      the first `rows` boxes and the label of each column lo..hi-1. */
  function RemovedColumnHandles(s: GridState, lo: nat, hi: nat): multiset<Handle>
    requires hi <= |s.checkBoxes| && hi <= |s.columnLabels| && 0 <= s.rows
    requires forall c :: lo <= c < hi ==> s.rows <= |s.checkBoxes[c]|
    decreases hi - lo
  {
    if lo >= hi then multiset{}
    else multiset(BoxHandles(s.checkBoxes[lo][..s.rows])) + multiset{s.columnLabels[lo].handle}
         + RemovedColumnHandles(s, lo + 1, hi)
  }

  /** A box or label leaving the grid's children. */
  function Unparent(s: GridState, h: Handle): GridState {
    s.(children := s.children - multiset{h})
  }

  /** The inner column-shrink loop so far: boxes lo..rows-1 of column i have
      left the grid. */
  function DropColumnBoxes(s: GridState, i: nat, lo: nat): GridState
    requires i < |s.checkBoxes| && lo <= s.rows <= |s.checkBoxes[i]|
  {
    s.(children := s.children - multiset(BoxHandles(s.checkBoxes[i][lo..s.rows])))
  }

  /** One pass of the outer column-shrink loop, for 0-based column i: its
      first `rows` boxes and its label leave the grid, and entry i leaves
      CheckBoxes, States, ColumnDefinitions and ColumnLabels. */
  function DropColumn(s: GridState, i: nat): GridState
    requires i < |s.states| == |s.checkBoxes| == |s.columnLabels| && i < |s.columnDefs|
    requires 0 <= s.rows <= |s.checkBoxes[i]|
  {
    s.(checkBoxes := s.checkBoxes[..i] + s.checkBoxes[i + 1..],
       states := s.states[..i] + s.states[i + 1..],
       columnDefs := s.columnDefs[..i] + s.columnDefs[i + 1..],
       children := s.children - multiset(BoxHandles(s.checkBoxes[i][..s.rows])) - multiset{s.columnLabels[i].handle},
       columnLabels := s.columnLabels[..i] + s.columnLabels[i + 1..])
  }

  /** The outer column-shrink loop: columns end..start-1 leave States,
      CheckBoxes and ColumnLabels, their boxes and labels leave the grid, and
      ColumnDefinitions loses the entries at the same 0-based indices
      end..start-1. */
  function DropColumns(s: GridState, start: nat, end: nat): (r: GridState)
    requires end <= start <= |s.states|
    requires |s.checkBoxes| == |s.states| == |s.columnLabels| && |s.columnDefs| == |s.states| + 1
    requires 0 <= s.rows && forall c :: end <= c < start ==> s.rows <= |s.checkBoxes[c]|
    ensures r.columns == s.columns && r.rows == s.rows && r.rowLabels == s.rowLabels && r.rowDefs == s.rowDefs
  {
    s.(states := Cut(s.states, end, start),
       checkBoxes := Cut(s.checkBoxes, end, start),
       columnDefs := Cut(s.columnDefs, end, start),
       columnLabels := Cut(s.columnLabels, end, start),
       children := s.children - RemovedColumnHandles(s, end, start))
  }

  /** The shrink branch of OnColumnsChanged (rows > 0): the outer loop, then
      shrinking to 0 hides every row label. */
  function RemoveColumns(s: GridState, start: nat, end: nat): (r: GridState)
    requires end <= start <= |s.states|
    requires |s.checkBoxes| == |s.states| == |s.columnLabels| && |s.columnDefs| == |s.states| + 1
    requires 0 <= s.rows && forall c :: end <= c < start ==> s.rows <= |s.checkBoxes[c]|
    ensures |r.states| == |r.checkBoxes| == |r.columnLabels| == |s.states| - (start - end)
    ensures r.columns == s.columns && r.rows == s.rows && |r.rowLabels| == |s.rowLabels| && r.rowDefs == s.rowDefs
  {
    var d := DropColumns(s, start, end);
    if end == 0 then d.(rowLabels := WithVisibility(d.rowLabels, Hidden)) else d
  }

  /** The grow branch of OnColumnsChanged (rows > 0): each new column gets
      `rows` false states and unsubscribed boxes; growing from 0 shows every
      row label. */
  function AddColumnBoxes(s: GridState, start: nat, end: nat): (r: GridState)
    requires start <= end <= |s.states| == |s.checkBoxes| && 0 <= s.rows
    ensures |r.states| == |r.checkBoxes| == |s.states| && r.columns == s.columns && r.rows == s.rows
  {
    var f := FillCells(s, start, end, 0, s.rows, false);
    if start == 0 then f.(rowLabels := WithVisibility(f.rowLabels, Visible)) else f
  }

  /** OnColumnsChanged with old value s.columns and new value end. */
  function ColumnsChanged(s: GridState, end: nat): (r: GridState)
    requires WellFormed(s)
    ensures r.columns == end && r.rows == s.rows
  {
    var start := s.columns;
    var s1 := s.(columns := end);
    var grown := if start < end then AppendColumns(s1, start, end) else s1;
    if s.rows == 0 || start == end then grown
    else if start > end then RemoveColumns(grown, start, end)
    else AddColumnBoxes(grown, start, end)
  }

  /** The Columns setter: a negative value is ignored. */
  function SetColumns(s: GridState, value: int): (r: GridState)
    requires WellFormed(s)
    ensures value < 0 ==> r == s
    ensures value >= 0 ==> r.columns == value && r.rows == s.rows
  {
    if value < 0 then s else ColumnsChanged(s, value)
  }

  // ---------------------------------------------------------------------
  // Rows

  /** One pass of the first loop of OnRowsChanged, for row number i. */
  function AppendRow(s: GridState, i: int): GridState {
    s.(rowDefs := s.rowDefs + [Auto],
       rowLabels := s.rowLabels + [TextBlock(s.nextHandle, i, 0, i, Visible)],
       children := Adopt(s.children, s.nextHandle), nextHandle := s.nextHandle + 1)
  }

  /** Visible labels "start+1".."start+n" at grid (0, start+1)..(0, start+n),
      with handles h, h+1, .... */
  function NewRowLabels(h: Handle, start: int, n: nat): (r: seq<TextBlock>)
    ensures |r| == n
  {
    seq(n, k requires 0 <= k < n => TextBlock(h + k, start + k + 1, 0, start + k + 1, Visible))
  }

  /** The first loop of OnRowsChanged: for each new row number
      i = start+1..end, an auto-sized row definition and a visible label "i"
      at grid (0, i). */
  function AppendRows(s: GridState, start: nat, end: nat): (r: GridState)
    requires start <= end
    ensures r.columns == s.columns && r.rows == s.rows && r.states == s.states && r.checkBoxes == s.checkBoxes
    ensures |r.rowLabels| == |s.rowLabels| + (end - start) && |r.rowDefs| == |s.rowDefs| + (end - start)
    ensures r.nextHandle == s.nextHandle + (end - start)
  {
    var n := end - start;
    var h := s.nextHandle;
    s.(rowDefs := s.rowDefs + Autos(n),
       rowLabels := s.rowLabels + NewRowLabels(h, start, n),
       children := s.children + multiset(Range(h, h + n)),
       nextHandle := h + n)
  }

  /** The boxes of rows end..start-1 in columns lo..hi-1. */
  function RemovedRowBoxHandles(s: GridState, lo: nat, hi: nat, end: nat, start: nat): multiset<Handle>
    requires hi <= |s.checkBoxes| && end <= start
    requires forall c :: lo <= c < hi ==> start <= |s.checkBoxes[c]|
    decreases hi - lo
  {
    if lo >= hi then multiset{}
    else multiset(BoxHandles(s.checkBoxes[lo][end..start])) + RemovedRowBoxHandles(s, lo + 1, hi, end, start)
  }

  /** One pass of the outer row-shrink loop, for column i: the states and
      boxes at rows end..start-1 leave column i, and the boxes leave the grid. */
  function DropRowColumn(s: GridState, i: nat, end: nat, start: nat): GridState
    requires i < |s.states| == |s.checkBoxes| && end <= start
    requires start <= |s.states[i]| && start <= |s.checkBoxes[i]|
  {
    s.(states := s.states[i := Cut(s.states[i], end, start)],
       checkBoxes := s.checkBoxes[i := Cut(s.checkBoxes[i], end, start)],
       children := s.children - multiset(BoxHandles(s.checkBoxes[i][end..start])))
  }

  /** One pass of the inner row-shrink loop: the box at row j of column i
      leaves the grid and the column, and so does the state at row j. */
  function RemoveRowCell(s: GridState, i: nat, j: nat): GridState
    requires i < |s.states| == |s.checkBoxes| && j < |s.states[i]| && j < |s.checkBoxes[i]|
  {
    s.(children := s.children - multiset{s.checkBoxes[i][j].handle},
       checkBoxes := s.checkBoxes[i := s.checkBoxes[i][..j] + s.checkBoxes[i][j + 1..]],
       states := s.states[i := s.states[i][..j] + s.states[i][j + 1..]])
  }

  /** The outer row-shrink loop over columns lo..hi-1. */
  function DropRowCells(s: GridState, lo: nat, hi: nat, end: nat, start: nat): (r: GridState)
    requires lo <= hi <= |s.states| == |s.checkBoxes| && end <= start
    requires forall c :: lo <= c < hi ==> start <= |s.states[c]| && start <= |s.checkBoxes[c]|
    ensures |r.states| == |r.checkBoxes| == |s.states| && r.rowLabels == s.rowLabels && r.rowDefs == s.rowDefs
  {
    s.(states := CutColumns(s.states, lo, hi, end, start),
       checkBoxes := CutColumns(s.checkBoxes, lo, hi, end, start),
       children := s.children - RemovedRowBoxHandles(s, lo, hi, end, start))
  }

  /** One pass of the row-label loop, for row number i: label i (at 0-based
      index i - 1) leaves the grid and RowLabels, and RowDefinitions loses
      its entry at index i. */
  function DropRowLabel(s: GridState, i: nat): GridState
    requires 1 <= i <= |s.rowLabels| && i < |s.rowDefs|
  {
    s.(children := s.children - multiset{s.rowLabels[i - 1].handle},
       rowLabels := s.rowLabels[..i - 1] + s.rowLabels[i..],
       rowDefs := s.rowDefs[..i] + s.rowDefs[i + 1..])
  }

  /** The row-label loop of the rows shrink: labels end..start-1 leave
      RowLabels and the grid, and RowDefinitions loses the entries at the
      1-based indices end+1..start. */
  function DropRowLabels(s: GridState, start: nat, end: nat): (r: GridState)
    requires end <= start <= |s.rowLabels| && |s.rowDefs| == |s.rowLabels| + 1
    ensures |r.rowLabels| == |s.rowLabels| - (start - end) && |r.rowDefs| == |r.rowLabels| + 1
    ensures r.states == s.states && r.checkBoxes == s.checkBoxes && r.columnDefs == s.columnDefs
  {
    s.(rowLabels := Cut(s.rowLabels, end, start),
       rowDefs := Cut(s.rowDefs, end + 1, start + 1),
       children := s.children - multiset(LabelHandles(s.rowLabels[end..start])))
  }

  /** The shrink branch of OnRowsChanged (columns > 0): the cells of rows
      end..start-1 in each of the first `columns` columns, then the row
      labels and definitions; shrinking to 0 hides every column label. */
  function RemoveRows(s: GridState, start: nat, end: nat): (r: GridState)
    requires end <= start <= |s.rowLabels| && |s.rowDefs| == |s.rowLabels| + 1
    requires 0 <= s.columns <= |s.states| == |s.checkBoxes|
    requires forall c :: 0 <= c < s.columns ==> start <= |s.states[c]| == |s.checkBoxes[c]|
    ensures |r.rowLabels| == |s.rowLabels| - (start - end) && |r.rowDefs| == |r.rowLabels| + 1
    ensures |r.states| == |s.states| && r.columns == s.columns && r.rows == s.rows && r.columnDefs == s.columnDefs
    ensures forall c :: 0 <= c < s.columns ==> |r.states[c]| == |s.states[c]| - (start - end)
  {
    var d := DropRowLabels(DropRowCells(s, 0, s.columns, end, start), start, end);
    if end == 0 then d.(columnLabels := WithVisibility(d.columnLabels, Hidden)) else d
  }

  /** The grow branch of OnRowsChanged (columns > 0): each of the first
      `columns` columns gets end - start false states and subscribed boxes;
      growing from 0 shows every column label. */
  function AddRowBoxes(s: GridState, start: nat, end: nat): (r: GridState)
    requires start <= end && 0 <= s.columns <= |s.states| == |s.checkBoxes|
    ensures |r.states| == |r.checkBoxes| == |s.states| && r.columns == s.columns && r.rows == s.rows
  {
    var f := FillCells(s, 0, s.columns, start, end, true);
    if start == 0 then f.(columnLabels := WithVisibility(f.columnLabels, Visible)) else f
  }

  /** OnRowsChanged with old value s.rows and new value end. */
  function RowsChanged(s: GridState, end: nat): (r: GridState)
    requires WellFormed(s)
    ensures r.rows == end && r.columns == s.columns
  {
    var start := s.rows;
    var s1 := s.(rows := end);
    var grown := if start < end then AppendRows(s1, start, end) else s1;
    if s.columns == 0 || start == end then grown
    else if start > end then RemoveRows(grown, start, end)
    else AddRowBoxes(grown, start, end)
  }

  /** The Rows setter: a negative value is ignored. */
  function SetRows(s: GridState, value: int): (r: GridState)
    requires WellFormed(s)
    ensures value < 0 ==> r == s
    ensures value >= 0 ==> r.rows == value && r.columns == s.columns
  {
    if value < 0 then s else RowsChanged(s, value)
  }

  // ---------------------------------------------------------------------
  // Labels, spacing

  function HeaderSize(showLabels: bool): GridLength {
    if showLabels then Auto else ZeroPixels
  }

  /** OnShowLabelsChanged: the header column and header row (definition 0)
      become auto-sized or zero pixels. */
  function ShowLabelsChanged(s: GridState, v: bool): (r: GridState)
    requires 1 <= |s.columnDefs| && 1 <= |s.rowDefs|
    ensures |r.columnDefs| == |s.columnDefs| && |r.rowDefs| == |s.rowDefs|
    ensures r.showLabels == v && r.columnDefs[0] == r.rowDefs[0] == (if v then Auto else ZeroPixels)
    ensures r.columnDefs[1..] == s.columnDefs[1..] && r.rowDefs[1..] == s.rowDefs[1..]
    ensures r.states == s.states && r.checkBoxes == s.checkBoxes && r.children == s.children
  {
    s.(showLabels := v,
       columnDefs := s.columnDefs[0 := HeaderSize(v)],
       rowDefs := s.rowDefs[0 := HeaderSize(v)])
  }

  /** OnSpacingChanged: the new spacing becomes every box's margin. */
  function SpacingChanged(s: GridState, t: Thickness): (r: GridState)
    ensures r.spacing == t && |r.checkBoxes| == |s.checkBoxes| && r.states == s.states && r.children == s.children
  {
    s.(spacing := t, checkBoxes := WithMargin(s.checkBoxes, t))
  }

  /** The 0-based cell OnCheckBoxChecked reports for a box. */
  function EventCell(b: CheckBox): (r: Cell)
    ensures forall c, k :: PlacedAt(b, c, k) ==> r == Cell(c, k)
  {
    Cell(b.gridColumn - 1, b.gridRow - 1)
  }
}
