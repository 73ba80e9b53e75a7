# CheckBoxGrid resize bookkeeping in Dafny

CheckBoxGrid is a WPF user control. It shows a `Columns` × `Rows` matrix of
check boxes, with a header row of column numbers and a header column of row
numbers. Each box is two-way bound to a cell of the `States` matrix of
booleans. This project models what the control's property-changed handlers
do to its bookkeeping:

- the `States` matrix and the `CheckBoxes` matrix;
- the column-label and row-label lists;
- the host grid's column and row definitions and its children;
- the stored `_columns`, `_rows`, `_showLabels` and `_spacing`.

It then proves what those handlers guarantee.

The model has these layers:

- `Layout` holds the value types: a check box, a text block, a grid length,
  a thickness and a cell.
- `GridSpec` holds the whole control as one value (`GridState`). It has one
  closed-form function per block of each handler, such as `AppendColumns`,
  `RemoveColumns`, `AddColumnBoxes` and `ColumnsChanged`. It also has two
  invariants:
  - `WellFormed` holds in every reachable state. It guarantees that no index
    the handlers use is out of range.
  - `Shaped` is the stronger invariant: the matrices are exactly
    `Columns` × `Rows`, and every box sits in, and is bound to, its own cell.
- `GridLoops` writes each of the handlers' loops as a step-by-step fold. It
  proves each fold equal to the closed form.
- `GridLemmas` proves what each block does, and which invariant each handler
  preserves.
- `GridProperties` proves what a user of the control sees:
  - what growing keeps and adds;
  - what shrinking removes;
  - when a shrink only changes the count;
  - label visibility;
  - that a grow then a shrink restores the grid;
  - header sizes, margins and the cell the Checked event reports.
- `GridChildren` defines `Handles`, the multiset of every box and label the
  control keeps in its own collections. It proves that each handler keeps
  the grid's children equal to `Handles` on a shaped control, and exactly
  which boxes and labels a shrink takes out.
- `GridRuns` models sequences of property assignments made through the
  public setters. From a shaped control, `Shaped` holds after a sequence if
  and only if that sequence never shrinks one dimension while the other is
  zero (`RunShapedIff`). While it holds, the grid's children are exactly
  the control's boxes and labels.
- `CheckBoxGridControl.CheckBoxGrid` is the control as a class whose fields
  the handlers update in place, loop by loop. Each method ends in the state
  that the matching `GridSpec` function gives for the state it started in.
- `CheckedEventArgs` is the read-only payload of the Checked event.

Each created box or label gets a fresh `Handle` from a counter. The grid's
children are a multiset of handles.

Two kinds of definition removal are modelled exactly as the code performs
them:

- Row definitions: the code removes row definitions `end+1 .. start`. These
  are exactly the shrunk rows, since row definition 0 is the header
  (`RowsShrinkRemoves`).
- Column definitions: the code calls `RemoveAt(i)` with the 0-based box
  column index, so it removes definitions `end .. start-1`. The header
  column's definition is at index 0, so the wrong definitions go.
  `ColumnsShrinkRemoves` states the result. Shrinking to zero columns
  therefore removes the header column's definition. `HiddenHeaderColumnDropped`
  shows that it then keeps the last box column's `Auto` width, not the
  header's zero width.

## Model

| member | source | states |
|---|---|---|
| CheckBoxGridControl.CheckBoxGrid.constructor | CheckBoxGrid.xaml.cs:11-35 | A new control has no columns or rows, shows labels, has a spacing of 2 on every side, has empty matrices, one auto-sized header column and one header row, no children and no Checked handlers, and is `WellFormed` |
| CheckBoxGridControl.CheckBoxGrid.AppendColumn | CheckBoxGrid.xaml.cs:57-71 | One pass adds an empty state column and box column, an auto-sized column definition, and label `i` at grid (i, 0), which also becomes a child |
| CheckBoxGridControl.CheckBoxGrid.AppendColumns | CheckBoxGrid.xaml.cs:53-73 | The loop ends in the state that `GridSpec.AppendColumns` gives for columns start+1..end |
| GridLoops.AppendColumnsLoopBlock | CheckBoxGrid.xaml.cs:55-72 | Running the append loop one pass at a time equals the closed-form append of the whole column range |
| GridLemmas.AppendColumnsFacts | CheckBoxGrid.xaml.cs:53-73 | Appending grows every column list by end-start, keeps the old entries, and adds empty columns and labels numbered start+1..end. Rows, row labels and spacing are unchanged |
| CheckBoxGridControl.CheckBoxGrid.CreateBox | CheckBoxGrid.xaml.cs:111-126 | One cell of a grow loop adds a false state and a new box placed at grid (i, j) with the current margin, bound to States[i-1][j-1], and made a child |
| CheckBoxGridControl.CheckBoxGrid.FillColumn | CheckBoxGrid.xaml.cs:109-127 | The inner grow loop adds the boxes of rows lo+1..hi to one column, in order |
| CheckBoxGridControl.CheckBoxGrid.AddColumnBoxes | CheckBoxGrid.xaml.cs:105-137 | The column-grow branch fills every new column with unsubscribed boxes, and makes the row labels visible when growing from no columns |
| GridLemmas.FillColumnStates | CheckBoxGrid.xaml.cs:109-111 | Filling a column appends hi-lo false states to it |
| GridLemmas.FillColumnBoxes | CheckBoxGrid.xaml.cs:109-125 | Filling a column appends the boxes for rows lo+1..hi, with consecutive fresh handles, to it |
| GridLemmas.FillColumnHandles | CheckBoxGrid.xaml.cs:113-126 | Filling a column adds exactly the fresh handles it creates to the grid's children |
| GridLemmas.FillColumnOthers | CheckBoxGrid.xaml.cs:111-125 | Filling one column leaves every other column's states and boxes unchanged |
| GridLemmas.FillColumnFrame | CheckBoxGrid.xaml.cs:109-127 | Filling a column changes no count, label, definition, spacing or ShowLabels value |
| GridLemmas.FillCellsColumn | CheckBoxGrid.xaml.cs:107-128 | After the nested grow loops, every filled column has gained false states and boxes placed at their own cells, with the current margin and the loop's subscription |
| GridLemmas.FillCellsOthers | CheckBoxGrid.xaml.cs:107-128 | The nested grow loops leave the columns outside their range unchanged |
| GridLemmas.FillCellsHandles | CheckBoxGrid.xaml.cs:107-128 | The nested grow loops add only fresh handles to the children |
| GridLemmas.FillCellsFrame | CheckBoxGrid.xaml.cs:107-128 | The nested grow loops touch only states, boxes, children and the handle counter |
| GridLemmas.FillCellsSizes | CheckBoxGrid.xaml.cs:107-128 | Each filled column grows by the row range, and the other columns keep their length |
| GridLemmas.FillCellsFacts | CheckBoxGrid.xaml.cs:222-247 | Everything the nested grow loops change, in one statement: old cells kept, new cells false and placed, fresh handles adopted, and nothing else changed |
| CheckBoxGridControl.CheckBoxGrid.Unparent | CheckBoxGrid.xaml.cs:86 | Removing a box or label from the grid takes its handle out of the children |
| CheckBoxGridControl.CheckBoxGrid.RemoveColumnBoxes | CheckBoxGrid.xaml.cs:82-87 | The inner column-shrink loop removes the boxes of rows rows-1 down to 0 of column i from the children |
| GridLoops.DropColumnBoxesLoopBlock | CheckBoxGrid.xaml.cs:82-87 | The backward box-removal loop equals removing all those boxes' handles at once |
| CheckBoxGridControl.CheckBoxGrid.RemoveColumn | CheckBoxGrid.xaml.cs:84-94 | One pass of the outer shrink loop removes column i from both matrices, column definition i and label i, and takes the label and boxes out of the children |
| CheckBoxGridControl.CheckBoxGrid.DropColumns | CheckBoxGrid.xaml.cs:80-95 | The outer shrink loop removes columns start-1 down to end |
| GridLoops.DropColumnsLoopBlock | CheckBoxGrid.xaml.cs:80-95 | Removing columns one at a time from the right equals cutting the range end..start-1 out of every column list |
| CheckBoxGridControl.CheckBoxGrid.RemoveColumns | CheckBoxGrid.xaml.cs:78-104 | The shrink branch removes columns end..start-1, and hides the row labels when no column is left |
| GridLemmas.RemoveColumnsFacts | CheckBoxGrid.xaml.cs:78-104 | The shrink branch keeps the columns below end, shifts the ones above start down, keeps rows, row definitions and row-label placement, and leaves the column lists of equal length |
| CheckBoxGridControl.CheckBoxGrid.OnColumnsChanged | CheckBoxGrid.xaml.cs:40-138 | The handler stores the new count, appends, returns early when there are no rows or no change, then shrinks or grows as `GridSpec.ColumnsChanged` says, and keeps `WellFormed` |
| CheckBoxGridControl.CheckBoxGrid.SetColumns | CheckBoxGrid.xaml.cs:147-152 | The setter ignores a negative value and otherwise runs OnColumnsChanged from the stored count, keeping `WellFormed` |
| GridLemmas.ColumnsChangedWellFormed | CheckBoxGrid.xaml.cs:40-138 | Every column change, including the early returns, leaves a state in which no index the handlers use is out of range |
| GridLemmas.ColumnsShrinkWellFormed | CheckBoxGrid.xaml.cs:78-104 | A column shrink with rows present keeps `WellFormed` |
| GridLemmas.ColumnsGrowWellFormed | CheckBoxGrid.xaml.cs:105-137 | A column grow with rows present keeps `WellFormed` |
| GridLemmas.ColumnsGrowShaped | CheckBoxGrid.xaml.cs:53-137 | Growing the columns of a shaped grid leaves it shaped |
| GridLemmas.ColumnsGrowBoxesShaped | CheckBoxGrid.xaml.cs:105-137 | Growing the columns with rows present gives every new cell a box placed and bound at that cell |
| GridLemmas.ColumnsShrinkShaped | CheckBoxGrid.xaml.cs:75-104 | Shrinking the columns of a shaped grid keeps it shaped if and only if there are rows. With no rows, the early return leaves the column lists at their old length |
| CheckBoxGridControl.CheckBoxGrid.AppendRow | CheckBoxGrid.xaml.cs:175-186 | One pass adds an auto-sized row definition and label `i` at grid (0, i), which also becomes a child |
| CheckBoxGridControl.CheckBoxGrid.AppendRows | CheckBoxGrid.xaml.cs:171-188 | The loop ends in the state that `GridSpec.AppendRows` gives for rows start+1..end |
| GridLoops.AppendRowsLoopBlock | CheckBoxGrid.xaml.cs:173-187 | Running the row-append loop one pass at a time equals the closed-form append |
| GridLemmas.AppendRowsFacts | CheckBoxGrid.xaml.cs:171-188 | Appending rows grows the row labels and row definitions by end-start, keeps the old ones, labels the new ones start+1..end, and changes nothing else |
| CheckBoxGridControl.CheckBoxGrid.AddRowBoxes | CheckBoxGrid.xaml.cs:222-256 | The row-grow branch adds subscribed boxes for rows start+1..end to every column, and makes the column labels visible when growing from no rows |
| CheckBoxGridControl.CheckBoxGrid.RemoveRowCell | CheckBoxGrid.xaml.cs:199-203 | One cell of the row-shrink loop takes box j out of the children, column i's boxes and column i's states |
| CheckBoxGridControl.CheckBoxGrid.RemoveRowBoxes | CheckBoxGrid.xaml.cs:197-204 | The inner row-shrink loop removes cells start-1 down to end of column i |
| GridLoops.DropRowColumnLoopBlock | CheckBoxGrid.xaml.cs:197-204 | Removing one column's cells from the bottom up equals cutting end..start-1 out of that column |
| CheckBoxGridControl.CheckBoxGrid.RemoveRowCells | CheckBoxGrid.xaml.cs:195-205 | The outer row-shrink loop does so for columns columns-1 down to 0 |
| GridLoops.DropRowCellsLoopBlock | CheckBoxGrid.xaml.cs:195-205 | Column by column, the row-shrink loop equals the closed-form cut of every column |
| CheckBoxGridControl.CheckBoxGrid.RemoveRowLabel | CheckBoxGrid.xaml.cs:209-211 | One pass removes row label i-1 from the children and the labels, and removes row definition i |
| CheckBoxGridControl.CheckBoxGrid.RemoveRowLabels | CheckBoxGrid.xaml.cs:207-212 | The label loop removes labels start-1 down to end and row definitions start down to end+1 |
| GridLoops.DropRowLabelsLoopBlock | CheckBoxGrid.xaml.cs:207-212 | The label loop equals cutting those labels and definitions at once |
| CheckBoxGridControl.CheckBoxGrid.RemoveRows | CheckBoxGrid.xaml.cs:193-221 | The row-shrink branch removes the cells, labels and definitions of rows end..start-1, and hides the column labels when no row is left |
| GridLemmas.RemoveRowsFacts | CheckBoxGrid.xaml.cs:193-221 | The row-shrink branch cuts the same range out of every column, keeps the lower row labels, and keeps the column definitions and column-label placement |
| CheckBoxGridControl.CheckBoxGrid.OnRowsChanged | CheckBoxGrid.xaml.cs:158-257 | The handler stores the new count, appends, returns early when there are no columns or no change, then shrinks or grows as `GridSpec.RowsChanged` says, and keeps `WellFormed` |
| CheckBoxGridControl.CheckBoxGrid.SetRows | CheckBoxGrid.xaml.cs:266-271 | The setter ignores a negative value and otherwise runs OnRowsChanged from the stored count, keeping `WellFormed` |
| GridLemmas.RowsChangedWellFormed | CheckBoxGrid.xaml.cs:158-257 | Every row change keeps `WellFormed` |
| GridLemmas.RowsGrowShaped | CheckBoxGrid.xaml.cs:171-256 | Growing the rows of a shaped grid leaves it shaped |
| GridLemmas.RowsGrowBoxesShaped | CheckBoxGrid.xaml.cs:222-256 | Growing the rows with columns present keeps `Shaped` |
| GridLemmas.RowsGrowBoxesPlaced | CheckBoxGrid.xaml.cs:224-247 | After a row grow, every column has exactly `end` states and boxes, and each box is placed at its own cell |
| GridLemmas.RowsGrowLabels | CheckBoxGrid.xaml.cs:171-188 | After a row grow, the row labels are numbered 1..end, and the column labels keep their numbers |
| GridLemmas.RowsShrinkShaped | CheckBoxGrid.xaml.cs:190-221 | Shrinking the rows of a shaped grid keeps it shaped if and only if there are columns. With no columns, the row labels keep their old length |
| GridLemmas.InitialShaped | CheckBoxGrid.xaml.cs:11-35 | The new control is shaped |
| GridSpec.AppendColumns | CheckBoxGrid.xaml.cs:53-73 | Appending columns start+1..end keeps both counts and the row labels, lengthens the state and label lists by end-start, and uses end-start fresh handles |
| GridSpec.DropColumns | CheckBoxGrid.xaml.cs:80-95 | The outer column-shrink loop leaves both counts, the row labels and the row definitions alone |
| GridSpec.RemoveColumns | CheckBoxGrid.xaml.cs:78-104 | The shrink branch leaves start-end fewer states, box columns and column labels, and keeps both counts, the row definitions and the number of row labels |
| GridSpec.AddColumnBoxes | CheckBoxGrid.xaml.cs:105-137 | The column-grow branch adds no column lists and keeps both counts |
| GridSpec.ColumnsChanged | CheckBoxGrid.xaml.cs:40-138 | OnColumnsChanged stores the new column count and keeps the row count |
| GridSpec.SetColumns | CheckBoxGrid.xaml.cs:147-152 | A negative value leaves the whole state unchanged. Otherwise Columns becomes the value and Rows is unchanged |
| GridSpec.AppendRows | CheckBoxGrid.xaml.cs:171-188 | Appending rows start+1..end keeps both counts and the cells, lengthens the row labels and row definitions by end-start, and uses end-start fresh handles |
| GridSpec.DropRowCells | CheckBoxGrid.xaml.cs:195-205 | The cell loop keeps the number of columns, the row labels and the row definitions |
| GridSpec.DropRowLabels | CheckBoxGrid.xaml.cs:207-212 | The label loop removes start-end labels, keeps one row definition per label plus the header, and leaves the cells and column definitions alone |
| GridSpec.RemoveRows | CheckBoxGrid.xaml.cs:193-221 | The row-shrink branch shortens the row labels and every counted column by start-end, keeps one row definition per label plus the header, and keeps both counts and the column definitions |
| GridSpec.AddRowBoxes | CheckBoxGrid.xaml.cs:222-256 | The row-grow branch adds no column lists and keeps both counts |
| GridSpec.RowsChanged | CheckBoxGrid.xaml.cs:158-257 | OnRowsChanged stores the new row count and keeps the column count |
| GridSpec.SetRows | CheckBoxGrid.xaml.cs:266-271 | A negative value leaves the whole state unchanged. Otherwise Rows becomes the value and Columns is unchanged |
| GridSpec.ShowLabelsChanged | CheckBoxGrid.xaml.cs:277-299 | The header column's width and the header row's height become Auto when labels are shown and zero pixels when not. Every other definition, the cells and the children are unchanged |
| GridSpec.SpacingChanged | CheckBoxGrid.xaml.cs:317-331 | The new spacing is stored. The states, the children and the number of box columns are unchanged |
| GridSpec.EventCell | CheckBoxGrid.xaml.cs:353-354 | For a box placed at cell (c, r), the event reports exactly (c, r) |
| GridProperties.NegativeSetIgnored | CheckBoxGrid.xaml.cs:149 | Assigning a negative Columns or Rows changes nothing |
| GridProperties.ColumnsGrowKeepsColumns | CheckBoxGrid.xaml.cs:53-137 | Growing the columns keeps every existing column's states, boxes and label, and leaves exactly `end` columns |
| GridProperties.ColumnsGrowNewCells | CheckBoxGrid.xaml.cs:107-128 | Every cell of a new column is false, and has a box placed at it with the current margin and no Checked subscription |
| GridProperties.ColumnsGrowColumn | CheckBoxGrid.xaml.cs:109-127 | Each new column holds one such box and one false state per row |
| GridProperties.ColumnsGrowNewLabels | CheckBoxGrid.xaml.cs:64-71 | Every new column label shows its 1-based column number at the top of that column and is visible |
| GridProperties.RowsGrowKeepsCells | CheckBoxGrid.xaml.cs:222-247 | Growing the rows keeps every existing cell's state and box, and each column ends with exactly `end` cells |
| GridProperties.RowsGrowNewCells | CheckBoxGrid.xaml.cs:226-245 | Every new cell is false, and has a box placed at it with the current margin and subscribed to Checked and Unchecked |
| GridProperties.RowsGrowColumn | CheckBoxGrid.xaml.cs:226-246 | In each column, the cells added by a row grow are false, placed and subscribed |
| GridProperties.RowsGrowNewLabels | CheckBoxGrid.xaml.cs:179-186 | Every new row label shows its 1-based row number in the header column and is visible |
| GridProperties.ColumnsShrinkRemoves | CheckBoxGrid.xaml.cs:78-95 | A column shrink with rows present keeps exactly the first `end` columns and labels. Its column definitions are the first `end` ones plus the old last one, since the removal index is 0-based. The children lose exactly the boxes and labels of the dropped columns |
| GridProperties.RowsShrinkRemoves | CheckBoxGrid.xaml.cs:193-212 | A row shrink with columns present keeps exactly the first `end` cells of every column, the first `end` labels, and the header plus the first `end` row definitions. The children lose exactly the dropped boxes of every column and the dropped row labels |
| GridProperties.ShrinkAgainstEmptyOnlyCounts | CheckBoxGrid.xaml.cs:75 | Shrinking one dimension while the other is zero changes only the stored count |
| GridProperties.ColumnsChangedRowLabels | CheckBoxGrid.xaml.cs:97-103 | A real column change hides the row labels when it leaves no column, shows them when it starts from no column, and otherwise leaves them alone |
| GridProperties.RowsChangedColumnLabels | CheckBoxGrid.xaml.cs:214-220 | Symmetrically for rows and the column labels (the show branch is at lines 249-255) |
| GridProperties.ColumnsGrowThenShrink | CheckBoxGrid.xaml.cs:40-138 | Growing the columns and then setting the old count back restores the states, boxes and column labels |
| GridProperties.RowsGrowThenShrink | CheckBoxGrid.xaml.cs:158-257 | Growing the rows and then setting the old count back restores the states, boxes, row labels and row definitions |
| GridProperties.RowsGrowHeaders | CheckBoxGrid.xaml.cs:171-188 | A row grow keeps the old row labels and definitions as a prefix |
| GridProperties.ShowLabelsSetsHeaders | CheckBoxGrid.xaml.cs:287-298 | ShowLabels sets the header column's width and header row's height to Auto or zero pixels, changes nothing else, and setting the same value twice is the same as once |
| CheckBoxGridControl.CheckBoxGrid.OnShowLabelsChanged | CheckBoxGrid.xaml.cs:277-299 | The handler ends in the state `GridSpec.ShowLabelsChanged` gives, and keeps `WellFormed` |
| GridProperties.SpacingSetsMargins | CheckBoxGrid.xaml.cs:317-331 | A new spacing becomes every box's margin, and nothing else changes |
| GridProperties.SpacingLastWins | CheckBoxGrid.xaml.cs:322-330 | Of two spacing assignments, only the last one matters |
| CheckBoxGridControl.CheckBoxGrid.OnSpacingChanged | CheckBoxGrid.xaml.cs:317-331 | The column-by-column loop ends in the state `GridSpec.SpacingChanged` gives, and keeps `WellFormed` |
| CheckBoxGridControl.SetMargins | CheckBoxGrid.xaml.cs:326-329 | The inner loop gives every box of one column the margin, and changes nothing else |
| CheckBoxGridControl.SetGroupVisibility | CheckBoxGrid.xaml.cs:99-102 | The foreach over a label group sets every label's visibility and keeps the rest of each label |
| GridProperties.CheckedReportsBoundCell | CheckBoxGrid.xaml.cs:353-354 | In a shaped grid, the cell that the Checked event computes from a box's grid position is exactly the cell that box is bound to |
| CheckBoxGridControl.CheckBoxGrid.OnCheckBoxChecked | CheckBoxGrid.xaml.cs:348-362 | The event is raised if and only if the sender is a box and a handler is attached. It carries the box's grid column and row less one, and IsChecked with null read as false |
| Layout.OrFalse | CheckBoxGrid.xaml.cs:360 | `IsChecked ?? false` is true exactly when IsChecked is true |
| CheckBoxGridControl.CheckedEvent.Add | CheckBoxGrid.xaml.cs:346 | `Checked +=` appends the handler to the event's invocation list |
| CheckBoxGridControl.CheckedEvent.Remove | CheckBoxGrid.xaml.cs:346 | `Checked -=` leaves the invocation list with one occurrence of the handler fewer, and changes nothing for a handler that is not in it |
| CheckBoxGridControl.WithoutHandler | CheckBoxGrid.xaml.cs:346 | Removing a handler that is in the list drops exactly one occurrence of it. Removing one that is not leaves the list as it is |
| CheckBoxGridControl.AddThenRemove | CheckBoxGrid.xaml.cs:346 | Subscribing and then unsubscribing the same handler restores the invocation list |
| CheckedEventArgs.CheckBoxGridCheckedEventArgs.constructor | CheckBoxGridCheckedEventArgs.cs:11-16 | The payload holds exactly the column, row and checked state it was built with, in read-only fields |
| GridRuns.Apply | CheckBoxGrid.xaml.cs:147-152 | Each public setter (Columns, Rows, Spacing, ShowLabels) keeps `WellFormed` |
| GridRuns.Run | CheckBoxGrid.xaml.cs:266-271 | Any sequence of setter assignments keeps `WellFormed` |
| GridRuns.ApplyShaped | CheckBoxGrid.xaml.cs:75-76 | One setter keeps a shaped grid shaped if and only if it does not shrink one dimension while the other is zero |
| GridRuns.RunShaped | CheckBoxGrid.xaml.cs:190-191 | A sequence of setters that never shrinks against an empty dimension keeps a shaped grid shaped |
| GridRuns.ReachableShaped | CheckBoxGrid.xaml.cs:11-35 | From a new control, such a sequence always yields matrices of exactly Columns × Rows, one label and one definition per column and row plus the headers, every box at its own cell, and exactly those boxes and labels as the grid's children |
| GridChildren.AddBoxMatch | CheckBoxGrid.xaml.cs:111-126 | Creating one box and adding it to the grid keeps the children equal to the boxes and labels the control holds |
| GridChildren.FillColumnMatch | CheckBoxGrid.xaml.cs:109-127 | The inner grow loop keeps the children equal to the boxes and labels the control holds |
| GridChildren.FillCellsMatch | CheckBoxGrid.xaml.cs:107-128 | So do the nested grow loops |
| GridChildren.AppendColumnsMatch | CheckBoxGrid.xaml.cs:53-73 | The new column labels are exactly the new children |
| GridChildren.AppendRowsMatch | CheckBoxGrid.xaml.cs:171-188 | The new row labels are exactly the new children |
| GridChildren.AddColumnBoxesMatch | CheckBoxGrid.xaml.cs:105-137 | The column-grow branch keeps the children equal to the control's boxes and labels |
| GridChildren.AddRowBoxesMatch | CheckBoxGrid.xaml.cs:222-256 | The row-grow branch keeps the children equal to the control's boxes and labels |
| GridChildren.RemovedColumnsAll | CheckBoxGrid.xaml.cs:80-95 | When every dropped column is full, the column-shrink loop takes out of the children exactly the boxes and labels of those columns |
| GridChildren.RemovedRowsAll | CheckBoxGrid.xaml.cs:195-205 | When every visited column is full, the row-shrink loop takes out exactly the boxes at the dropped rows |
| GridChildren.DropTailColumns | CheckBoxGrid.xaml.cs:80-95 | Dropping every column from end on keeps the prefixes and takes the rest's boxes and labels out of the children |
| GridChildren.ColumnsShrinkChildren | CheckBoxGrid.xaml.cs:78-104 | A column shrink on a shaped grid keeps the first `end` box columns and labels and the row-label handles, and takes the rest's boxes and labels out of the children |
| GridChildren.RowsShrinkChildren | CheckBoxGrid.xaml.cs:193-221 | A row shrink on a shaped grid keeps the first `end` boxes of every column and the first `end` row labels, and takes the dropped boxes and labels out of the children |
| GridChildren.ColumnsShrinkMatch | CheckBoxGrid.xaml.cs:78-104 | A column shrink keeps the children equal to the control's boxes and labels |
| GridChildren.RowsShrinkMatch | CheckBoxGrid.xaml.cs:193-221 | A row shrink keeps the children equal to the control's boxes and labels |
| GridChildren.ColumnsChangedMatch | CheckBoxGrid.xaml.cs:40-138 | Every OnColumnsChanged on a shaped grid keeps the children equal to the control's boxes and labels |
| GridChildren.RowsChangedMatch | CheckBoxGrid.xaml.cs:158-257 | Every OnRowsChanged on a shaped grid does too |
| GridChildren.SpacingMatch | CheckBoxGrid.xaml.cs:317-331 | Changing the margins changes no handle, so the children still match |
| GridRuns.ApplyMatch | CheckBoxGrid.xaml.cs:147-152 | One setter call on a shaped grid keeps the children equal to the control's boxes and labels |
| GridRuns.RunMatch | CheckBoxGrid.xaml.cs:266-271 | So does every sequence of setter calls that keeps the shape |
| GridRuns.Slack | CheckBoxGrid.xaml.cs:75 | The number of columns and row labels an early return has left behind. It is 0 on a shaped grid |
| GridRuns.ColumnsChangedSlack | CheckBoxGrid.xaml.cs:40-138 | A columns change adjusts the state columns to the new count, except that a shrink against no rows leaves them as they were |
| GridRuns.RowsChangedSlack | CheckBoxGrid.xaml.cs:158-257 | A rows change adjusts the row labels to the new count, except that a shrink against no columns leaves them as they were |
| GridRuns.ApplySlack | CheckBoxGrid.xaml.cs:190-191 | No setter call brings the collections back to the counts, and a shrink against an empty dimension puts them further ahead |
| GridRuns.RunSlack | CheckBoxGrid.xaml.cs:75-76 | Over a sequence the slack never goes down, and grows if any call shrinks against an empty dimension |
| GridRuns.RunShapedIff | CheckBoxGrid.xaml.cs:75-76 | From a shaped grid, a sequence of setter calls ends shaped if and only if it never shrinks one dimension while the other is zero |
| GridRuns.ShrinkAgainstEmptyLosesShape | CheckBoxGrid.xaml.cs:75 | Setting Columns to n and then to any m < n with no rows leaves n state columns and n labels for m columns |
| GridRuns.HiddenHeaderColumnDropped | CheckBoxGrid.xaml.cs:91 | With labels hidden, growing and then clearing the columns leaves the header row at zero height. The only column definition left is then Auto, not the header's zero width |
| GridRuns.ColumnsAddedToNone | CheckBoxGrid.xaml.cs:53-62 | Adding columns to a grid with none appends one Auto definition per column |

## Left out

- The dependency-property machinery (`DependencyProperty.Register`, `SetValue`, coercion) is not modelled. A handler's OldValue is the stored field, which is what the public setters pass.
- `InitializeComponent` and the XAML are not modelled. The host grid starts with one auto-sized header column definition, one auto-sized header row definition and no other children, which the handlers assume.
- The handlers' returns for a sender that is not a CheckBoxGrid, or a missing Container, are not modelled. The sender is always the control, and its grid always exists.
- The data-binding engine is not modelled. A binding is recorded as the cell it points at, and `ClearBinding` is a no-op, since the removed box leaves the model.
- `CheckBoxes[i].Remove(box)` is modelled as removal at index j, which is the same since every box has its own handle.
- Grid children are a multiset of handles, so their order is not modelled.
- Alignments and fonts are not modelled. A label's text is the number it shows, and a thickness is four reals.
- The `States` setter, which replaces the whole matrix from outside, is not modelled: it bypasses every handler.
- The ShowLabels `e.NewValue == e.OldValue` check compares boxed references and is false for distinct boxes. The handler is therefore modelled as running unconditionally.
- The Checked event's handlers are identities in an invocation list, and what they do is not modelled. WPF's routing of Checked and Unchecked to `OnCheckBoxChecked` is not modelled either.
- A box's IsChecked value is a parameter of `OnCheckBoxChecked`, because the binding engine that would set it is not modelled.
- Integer overflow of `int` counts is not modelled. The counts are unbounded, which matches the control for every size a screen can hold.
