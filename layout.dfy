/**
 * Value stand-ins for the WPF objects the CheckBoxGrid control creates and
 * updates: the per-cell CheckBox, the TextBlock header labels, GridLength
 * sizes, Visibility and the Thickness margin. A CheckBox or TextBlock is a
 * record that carries a Handle, the identity the host grid's Children
 * collection refers to.
 */
module Layout {

  /** Identity of a created CheckBox or TextBlock. */
  type Handle = nat

  datatype Option<+T> = None | Some(value: T)

  /** A four-sided margin; only its equality and assignment matter here. */
  datatype Thickness = Thickness(left: real, top: real, right: real, bottom: real)

  /** The control's initial spacing, a uniform margin of 2. */
  const DefaultSpacing: Thickness := Thickness(2.0, 2.0, 2.0, 2.0)

  /** The two sizes the control gives a row or column definition:
      one auto-sized unit, or zero pixels. */
  datatype GridLength = Auto | ZeroPixels

  datatype Visibility = Visible | Hidden

  /** A 0-based (column, row) position in the state matrix. */
  datatype Cell = Cell(column: int, row: int)

  /** A cell's check box: its placement in the host grid (1-based, after the
      header row and column), its margin, the state-matrix cell its IsChecked
      property is bound to, and whether the control listens to its
      Checked/Unchecked events. */
  datatype CheckBox = CheckBox(
    handle: Handle,
    gridColumn: int,
    gridRow: int,
    margin: Thickness,
    binding: Option<Cell>,
    subscribed: bool)

  /** A header label: the number it shows and its placement in the host grid. */
  datatype TextBlock = TextBlock(
    handle: Handle,
    text: int,
    gridColumn: int,
    gridRow: int,
    visibility: Visibility)

  /** The value `IsChecked ?? false` of a nullable boolean. */
  function OrFalse(b: Option<bool>): (r: bool)
    ensures r <==> b == Some(true)
  {
    match b
    case Some(v) => v
    case None => false
  }
}
