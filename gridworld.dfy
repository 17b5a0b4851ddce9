/**
 * The `GridWorld` environment of simulation/gridworld.py: its fields, updated in place by
 * `move`, `reset` and the `walls` setter, and the snapshot `render` hands to its printer.
 */
module Gridworld {
  import opened Wrappers
  import opened Cells
  import opened Rules
  import opened Snapshot

  class GridWorld {
    const rows: int
    const cols: int
    const startPos: Cell
    const goalPos: Cell
    const maxSteps: int
    const rewards: map<Status, int>
    var carPos: Cell
    var carStatus: Status
    var walls: seq<Cell>
    var world: Option<seq<seq<char>>>
    var stepsTaken: nat
    var done: bool

    /** What the constructor fixes: the goal in the last corner, one step of budget per cell, the reward table. */
    ghost predicate Valid()
      reads this
    {
      WellFormed(Config()) && rewards == RewardTable
    }

    /** The fixed part of the environment, as the transition rules see it. */
    function Config(): Layout
      reads this
    {
      Layout(rows, cols, walls, goalPos, maxSteps)
    }

    /** The part of the environment a move changes. */
    function State(): EpisodeState
      reads this
    {
      EpisodeState(carPos, carStatus, stepsTaken, done)
    }

    /** What `_update_world` can paint without numpy's negative-index wrap-around or an index error. */
    predicate Renderable()
      reads this
    {
      0 < rows && 0 < cols && InGrid(rows, cols, carPos)
      && forall i :: 0 <= i < |walls| ==> InGrid(rows, cols, walls[i])
    }

    /** `GridWorld(size, start_pos)`: the car at the start, no walls, a fresh episode. */
    constructor (size: (int, int) := (5, 5), start: (int, int) := (0, 0))
      ensures Valid()
      ensures rows == size.0 && cols == size.1 && startPos == Cell(start.0, start.1)
      ensures State() == EpisodeState(startPos, Normal, 0, false)
      ensures walls == [] && world == None
    {
      rows := size.0;
      cols := size.1;
      startPos := Cell(start.0, start.1);
      carPos := Cell(start.0, start.1);
      carStatus := Normal;
      goalPos := Cell(size.0 - 1, size.1 - 1);
      walls := [];
      world := None;
      maxSteps := size.0 * size.1;
      stepsTaken := 0;
      done := false;
      rewards := RewardTable;
    }

    /** `reset`: a new episode on the same grid. The car is NOT moved back; the start is only returned. */
    method Reset() returns (start: Cell)
      requires Valid()
      modifies this`stepsTaken, this`done, this`carStatus
      ensures Valid() && Config() == old(Config())
      ensures State() == EpisodeState(old(carPos), Normal, 0, false)
      ensures start == startPos
    {
      stepsTaken := 0;
      done := false;
      carStatus := Normal;
      start := startPos;
    }

    /** The `walls` setter: one cell per coordinate pair, in the given order. */
    method SetWalls(value: seq<(int, int)>)
      requires Valid()
      modifies this`walls
      ensures Valid() && State() == old(State())
      ensures |walls| == |value|
      ensures forall i :: 0 <= i < |value| ==> walls[i] == Cell(value[i].0, value[i].1)
    {
      walls := seq(|value|, i requires 0 <= i < |value| => Cell(value[i].0, value[i].1));
    }

    /** `_in_wall`: list membership as Python decides it, by `Cell.__eq__`. */
    function OnWall(cell: Cell): (r: bool)
      reads this
      ensures r <==> exists i :: 0 <= i < |walls| && Equal(walls[i], cell)
    {
      cell in walls
    }

    /** `_move_right`. */
    method MoveRight() returns (next: Cell)
      modifies this`carStatus
      ensures Outcome(next, carStatus) == Attempt(Config(), carPos, Right)
    {
      next := Cell(carPos.row, carPos.col + 1);
      if next.col == cols {
        carStatus := InFence;
        next := carPos;
      } else if next in walls {
        carStatus := InWall;
        next := carPos;
      } else {
        carStatus := Normal;
      }
    }

    /** `_move_left`. */
    method MoveLeft() returns (next: Cell)
      modifies this`carStatus
      ensures Outcome(next, carStatus) == Attempt(Config(), carPos, Left)
    {
      next := Cell(carPos.row, carPos.col - 1);
      if next.col < 0 {
        carStatus := InFence;
        next := carPos;
      } else if next in walls {
        carStatus := InWall;
        next := carPos;
      } else {
        carStatus := Normal;
      }
    }

    /** `_move_down`. */
    method MoveDown() returns (next: Cell)
      modifies this`carStatus
      ensures Outcome(next, carStatus) == Attempt(Config(), carPos, Down)
    {
      next := Cell(carPos.row + 1, carPos.col);
      if next.row == rows {
        carStatus := InFence;
        next := carPos;
      } else if next in walls {
        carStatus := InWall;
        next := carPos;
      } else {
        carStatus := Normal;
      }
    }

    /** `_move_up`. */
    method MoveUp() returns (next: Cell)
      modifies this`carStatus
      ensures Outcome(next, carStatus) == Attempt(Config(), carPos, Up)
    {
      next := Cell(carPos.row - 1, carPos.col);
      if next.row < 0 {
        carStatus := InFence;
        next := carPos;
      } else if next in walls {
        carStatus := InWall;
        next := carPos;
      } else {
        carStatus := Normal;
      }
    }

    /** `move`: the new state is `Transition` of the old one, and the result is its observation. */
    method Move(direction: Direction) returns (obs: Observation)
      requires Valid()
      modifies this`carPos, this`carStatus, this`stepsTaken, this`done
      ensures Valid() && Config() == old(Config())
      ensures State() == Transition(Config(), old(State()), direction)
      ensures obs == Observe(State())
      ensures obs.reward == rewards[carStatus]
    {
      var next: Cell;
      match direction {
        case Right => next := MoveRight();
        case Left => next := MoveLeft();
        case Down => next := MoveDown();
        case Up => next := MoveUp();
      }
      stepsTaken := stepsTaken + 1;
      if stepsTaken == maxSteps {
        done := true;
      }
      carPos := next;
      if Equal(carPos, goalPos) {
        carStatus := AtGoal;
        done := true;
      }
      RewardTableComplete();
      var reward := rewards[carStatus];
      obs := Observation(next, reward, done);
    }

    /**
     * `_update_world`: `rows` rows of `cols` glyphs; the goal shows 'G', the car 'C' unless it is
     * on the goal, a wall '#' unless the car or the goal is on it, and every other cell a blank.
     */
    function UpdateWorld(): (w: seq<seq<char>>)
      reads this
      requires Valid() && Renderable()
      ensures IsGrid(w, rows, cols)
      ensures forall r, c :: 0 <= r < rows && 0 <= c < cols ==> w[r][c] == Glyph(walls, carPos, goalPos, Cell(r, c))
    {
      var blank := Blank(rows, cols);
      PaintWallsAt(blank, rows, cols, walls);
      var painted := Paint(PaintWalls(blank, rows, cols, walls), rows, cols, carPos, 'C');
      Paint(painted, rows, cols, goalPos, 'G')
    }

    /** `render`: stores the snapshot it prints; nothing else changes, so a second render stores the same grid. */
    method Render()
      requires Valid() && Renderable()
      modifies this`world
      ensures Valid() && Renderable()
      ensures Config() == old(Config()) && State() == old(State())
      ensures world == Some(UpdateWorld()) && UpdateWorld() == old(UpdateWorld())
    {
      world := Some(UpdateWorld());
    }
  }

  /** A client of the class: reaching the goal of a 2 by 2 grid in two moves. */
  method GoalInTwoMoves()
  {
    var grid := new GridWorld((2, 2));
    var start := grid.Reset();
    assert start == Cell(0, 0);
    var obs := grid.Move(Down);
    assert obs == Observation(Cell(1, 0), -1, false);
    obs := grid.Move(Right);
    assert obs == Observation(Cell(1, 1), 100, true);
  }
}
