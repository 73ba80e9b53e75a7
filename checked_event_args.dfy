/**
 * The payload of the control's Checked event: the 0-based column and row of
 * the toggled cell and its new checked state. All three fields are read-only,
 * so a payload never changes after it is constructed.
 */
module CheckedEventArgs {

  class CheckBoxGridCheckedEventArgs {
    const column: int
    const row: int
    const isChecked: bool

    constructor (column: int, row: int, isChecked: bool)
      ensures this.column == column
      ensures this.row == row
      ensures this.isChecked == isChecked
    {
      this.column := column;
      this.row := row;
      this.isChecked := isChecked;
    }
  }
}
