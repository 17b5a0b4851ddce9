# Grid world transition-and-reward engine

A Dafny model of the grid environment in `simulation/gridworld.py`. A car moves on a
`rows × cols` grid with walls. The goal is the bottom-right cell, `(rows-1, cols-1)`.
A move is refused when it would cross the grid's edge (the "fence") or enter a wall.
Every move costs one step of a budget of `rows*cols` steps. Reaching the goal or spending
the budget ends the episode. The reward is looked up from the status of the last move:
normal -1, fence -5, wall -5, goal 100.

Files:

- `cell.dfy` (module `Cells`): the `Cell` coordinate as an immutable datatype, its equality, and grid membership.
- `rules.dfy` (module `Rules`): the moves as functions on values.
  - `Attempt` is the four `_move_*` helpers and `Transition` is `move`.
  - `Run` is a sequence of moves.
  - The lemmas state bounds, wall exclusion, step counting, termination and rewards.
- `snapshot.dfy` (module `Snapshot`): painting the glyph grid, and `Glyph`, the per-cell reference for what the snapshot shows.
- `gridworld.dfy` (module `Gridworld`): the class `GridWorld`.
  - Its fields are updated in place by `Move`, `Reset` and `SetWalls`.
  - Each method is proved against the functions of `Rules`.
  - `UpdateWorld` is proved to show exactly `Glyph` at every cell.
  - `GoalInTwoMoves` is an example client of the class: on a 2 by 2 grid it resets, moves down, then moves right onto the goal.
- `wrappers.dfy`: an `Option` type for the source's `None` values.

Points where the model keeps behaviour a reader might not expect:

- `_update_world` paints the goal after the car (simulation/gridworld.py:76-77), so 'G' overrides 'C' when the car is on the goal.
- The constructor does not reject non-positive sizes, and neither does the model. `UpdateWorld` and `Render` require a non-empty grid with the car and every wall inside it.
- `reset` leaves the car where it is and only returns the start cell. The model keeps that behaviour.

## Model

| member | source | states |
|---|---|---|
| Cells.Equal | simulation/gridworld.py:27-28 | coordinate-wise comparison holds exactly when the two cells are the same value |
| Rules.DirectionOf | simulation/gridworld.py:138-147 | a string selects a direction exactly when it is that direction's one-letter token ("r", "l", "d", "u"); every other string, empty or longer, selects none |
| Rules.Attempt | simulation/gridworld.py:81-131 | a helper proposes the old cell or its neighbour; the old cell exactly when the status is not normal; never the goal status; an accepted cell is not a wall |
| Rules.CrossesFenceIffOutside | simulation/gridworld.py:81-131 | from inside the grid, the `== cols`/`< 0`/`== rows`/`< 0` tests fire exactly when the neighbour is outside the grid |
| Rules.AttemptClassified | simulation/gridworld.py:81-131 | from inside the grid: fence iff the neighbour is outside (checked before walls), wall iff inside and listed, normal iff inside and not listed, and then the car moves to the neighbour |
| Rules.Transition | simulation/gridworld.py:138-156 | a move adds one step; never clears `done`; goal status exactly when the car ends on the goal, and then `done`; elsewhere the helper's status, and `done` iff it was already done or the budget is reached |
| Rules.Observe | simulation/gridworld.py:158-159 | the returned triple is the committed position, 100 for the goal status, -1 for normal, -5 for fence or wall, and the committed `done` |
| Rules.RewardTableComplete | simulation/gridworld.py:50-55 | every status has a reward entry, so the lookup never misses, and only the goal pays a positive reward |
| Rules.TransitionInGrid | simulation/gridworld.py:81-131 | a move from inside the grid ends inside the grid |
| Rules.MoveOutcome | simulation/gridworld.py:81-153 | the new position is the old one or its neighbour, and the old one exactly when the neighbour is outside the grid or a wall |
| Rules.TransitionAvoidsWalls | simulation/gridworld.py:81-153 | a move that changes the position never lands on a wall; a car off the walls stays off them |
| Rules.MoveReward | simulation/gridworld.py:50-158 | the reward is 100 on the goal, otherwise -5 when the neighbour is outside or a wall, otherwise -1 |
| Rules.RunSteps | simulation/gridworld.py:149 | a run of n moves adds exactly n steps |
| Rules.RunKeepsDone | simulation/gridworld.py:149-156 | once `done` is set, no later move clears it |
| Rules.RunStaysSafe | simulation/gridworld.py:81-153 | a car starting inside the grid and off the walls is inside and off the walls after any run |
| Rules.RunExhaustsBudget | simulation/gridworld.py:149-151 | a run that reaches the step budget ends with `done`, whether or not the goal was reached |
| Rules.RunEndsAtGoal | simulation/gridworld.py:153-156 | a run ending on the goal ends with the goal status and `done` |
| Rules.FenceExample | simulation/gridworld.py:120-131 | stepping up from the top row leaves the car in place with the fence status and reward -5 |
| Rules.GoalExample | simulation/gridworld.py:153-159 | on a 2 by 2 grid, stepping right from (1,0) returns ((1,1), 100, done) |
| Rules.BudgetExample | simulation/gridworld.py:149-151 | on a 2 by 2 grid, four refused moves end the episode on the budget at (0,0) |
| Snapshot.Blank | simulation/gridworld.py:72 | the starting grid has `rows` rows of `cols` blanks |
| Snapshot.Paint | simulation/gridworld.py:76-77 | one assignment changes exactly the painted cell and keeps the grid's shape |
| Snapshot.PaintWalls | simulation/gridworld.py:73-75 | painting the walls keeps the grid's shape |
| Snapshot.PaintWallsAt | simulation/gridworld.py:73-75 | after painting the walls, a cell shows '#' exactly when it is a wall and is unchanged otherwise |
| Gridworld.GridWorld.constructor | simulation/gridworld.py:38-55 | the car is at the start; the goal is the last corner; the budget is `rows*cols`; there are no walls; the episode is fresh; the reward table is the fixed one |
| Gridworld.GridWorld.Reset | simulation/gridworld.py:57-61 | steps are 0, `done` is false and the status is normal; the car and the walls are unchanged; the start cell is returned |
| Gridworld.GridWorld.SetWalls | simulation/gridworld.py:67-69 | the wall list has one cell per given pair, in order; nothing else changes |
| Gridworld.GridWorld.OnWall | simulation/gridworld.py:133-134 | a cell is in the wall list exactly when some wall equals it by `Cell.__eq__` |
| Gridworld.GridWorld.MoveRight | simulation/gridworld.py:81-92 | the returned cell and the new status are `Attempt` to the right from the car |
| Gridworld.GridWorld.MoveLeft | simulation/gridworld.py:94-105 | the returned cell and the new status are `Attempt` to the left from the car |
| Gridworld.GridWorld.MoveDown | simulation/gridworld.py:107-118 | the returned cell and the new status are `Attempt` downward from the car |
| Gridworld.GridWorld.MoveUp | simulation/gridworld.py:120-131 | the returned cell and the new status are `Attempt` upward from the car |
| Gridworld.GridWorld.Move | simulation/gridworld.py:138-159 | the new car, status, step count and `done` are `Transition` of the old ones; walls and layout are unchanged; it returns (new position, table reward of the new status, `done`) |
| Gridworld.GridWorld.UpdateWorld | simulation/gridworld.py:71-79 | `rows` rows of `cols` glyphs: 'G' at the goal, else 'C' at the car, else '#' at a wall, else a blank |
| Gridworld.GridWorld.Render | simulation/gridworld.py:161-163 | stores the snapshot and changes nothing else, so the snapshot is the same on repeated calls |

## Left out

- `main.py`, the interactive driver: it reads keys, clears the screen and prints. It is terminal I/O with no logic.
- The `tabulate`/`print` output of `render`: only the stored snapshot is modelled.
- Gridworld.GridWorld.UpdateWorld: requires the car and every wall to lie inside a non-empty grid. numpy would instead wrap negative indices around, and raise on indices past the end.
- Gridworld.GridWorld.Render: requires the same as `UpdateWorld`, for the same reason.
- Snapshot.Paint: requires the painted cell to lie inside the grid. numpy would wrap a negative index around, and raise on an index past the end.
- Snapshot.PaintWalls: requires every wall to lie inside the grid, for the same reason.
- Gridworld.GridWorld.Move: takes a `Direction` value, so an unrecognised token cannot reach it. In the source such a token leaves `next_state` as `None`, and the goal comparison then raises. `DirectionOf` models which tokens are recognised.
- The `Cell` property setters and `__repr__`: nothing in the core mutates a cell, and `__repr__` is display only.
- Aliasing of `car_pos` with `start_pos`: a cell is an immutable value here.
- The `walls` getter: it only reads the field.
