/**
 * The glyph snapshot `GridWorld._update_world` builds for `render`: a grid of blanks on which
 * the walls, then the car, then the goal are painted.
 */
module Snapshot {
  import opened Cells

  /** `g` has `rows` rows of `cols` characters each. */
  predicate IsGrid(g: seq<seq<char>>, rows: nat, cols: nat)
  {
    |g| == rows && forall r :: 0 <= r < rows ==> |g[r]| == cols
  }

  /** The glyph a cell shows: the goal over the car, the car over a wall, a blank elsewhere. */
  function Glyph(walls: seq<Cell>, car: Cell, goal: Cell, p: Cell): char
  {
    if p == goal then 'G' else if p == car then 'C' else if p in walls then '#' else ' '
  }

  /** The all-blank grid the snapshot starts from. */
  function Blank(rows: nat, cols: nat): (g: seq<seq<char>>)
    ensures IsGrid(g, rows, cols)
    ensures forall r, c :: 0 <= r < rows && 0 <= c < cols ==> g[r][c] == ' '
  {
    seq(rows, _ => seq(cols, _ => ' '))
  }

  /** One cell assignment `world[row][col] = ch`. */
  function Paint(g: seq<seq<char>>, rows: nat, cols: nat, p: Cell, ch: char): (h: seq<seq<char>>)
    requires IsGrid(g, rows, cols) && InGrid(rows, cols, p)
    ensures IsGrid(h, rows, cols)
    ensures forall r, c :: 0 <= r < rows && 0 <= c < cols ==> h[r][c] == if Cell(r, c) == p then ch else g[r][c]
  {
    g[p.row := g[p.row][p.col := ch]]
  }

  /** The assignment `world[wall_rows, wall_cols] = '#'`, one wall at a time. */
  function PaintWalls(g: seq<seq<char>>, rows: nat, cols: nat, walls: seq<Cell>): (h: seq<seq<char>>)
    requires IsGrid(g, rows, cols)
    requires forall i :: 0 <= i < |walls| ==> InGrid(rows, cols, walls[i])
    ensures IsGrid(h, rows, cols)
    decreases |walls|
  {
    if walls == [] then g else PaintWalls(Paint(g, rows, cols, walls[0], '#'), rows, cols, walls[1..])
  }

  /** After painting the walls, a cell shows '#' exactly when it is a wall, and is untouched otherwise. */
  lemma {:induction false} PaintWallsAt(g: seq<seq<char>>, rows: nat, cols: nat, walls: seq<Cell>)
    requires IsGrid(g, rows, cols)
    requires forall i :: 0 <= i < |walls| ==> InGrid(rows, cols, walls[i])
    ensures forall r, c :: 0 <= r < rows && 0 <= c < cols ==>
      PaintWalls(g, rows, cols, walls)[r][c] == if Cell(r, c) in walls then '#' else g[r][c]
    decreases |walls|
  {
    if walls != [] {
      var g' := Paint(g, rows, cols, walls[0], '#');
      PaintWallsAt(g', rows, cols, walls[1..]);
      forall r, c | 0 <= r < rows && 0 <= c < cols
        ensures PaintWalls(g, rows, cols, walls)[r][c] == if Cell(r, c) in walls then '#' else g[r][c]
      {
        assert Cell(r, c) in walls <==> Cell(r, c) == walls[0] || Cell(r, c) in walls[1..] by {
          assert walls == [walls[0]] + walls[1..];
        }
      }
    }
  }
}
