/** Grid coordinates: the `Cell` class of simulation/gridworld.py, as an immutable value. */
module Cells {

  /** An integer (row, col) coordinate. The type itself attaches no bound to either coordinate. */
  datatype Cell = Cell(row: int, col: int)

  /** `Cell.__eq__`: two cells are equal when both coordinates match, which is value equality. */
  function Equal(a: Cell, b: Cell): (r: bool)
    ensures r <==> a == b
  {
    a.row == b.row && a.col == b.col
  }

  /** The cell lies inside a grid of `rows` rows and `cols` columns. */
  predicate InGrid(rows: int, cols: int, c: Cell)
  {
    0 <= c.row < rows && 0 <= c.col < cols
  }
}
