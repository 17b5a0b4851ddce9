/**
 * The transition-and-reward rules of `GridWorld.move` (simulation/gridworld.py), stated on
 * values. The class in gridworld.dfy is proved to follow these functions; the lemmas here
 * state what a move, and a run of moves, does.
 */
module Rules {
  import opened Wrappers
  import opened Cells

  /** The four moves. The source spells them as the strings "l", "r", "u" and "d". */
  datatype Direction = Left | Right | Up | Down

  /** The car's status after the most recent move, which selects the reward. */
  datatype Status = Normal | InFence | InWall | AtGoal

  /** The fixed reward table of `GridWorld.__init__`. */
  const RewardTable: map<Status, int> := map[InFence := -5, InWall := -5, AtGoal := 100, Normal := -1]

  /** The token `move` compares its argument with for each direction. */
  function TokenOf(d: Direction): char
  {
    match d
    case Right => 'r'
    case Left => 'l'
    case Down => 'd'
    case Up => 'u'
  }

  /** The branch of `move` a token selects; any other string, empty or longer ones included, selects none. */
  function DirectionOf(token: string): (d: Option<Direction>)
    ensures d.Some? ==> [TokenOf(d.value)] == token
    ensures d.None? <==> forall e :: [TokenOf(e)] != token
  {
    if token == "r" then Some(Right)
    else if token == "l" then Some(Left)
    else if token == "d" then Some(Down)
    else if token == "u" then Some(Up)
    else None
  }

  /** The fixed part of an environment: its extent, its walls, its goal and its step budget. */
  datatype Layout = Layout(rows: int, cols: int, walls: seq<Cell>, goal: Cell, maxSteps: int)

  /** The part of an environment a move changes. */
  datatype EpisodeState = EpisodeState(car: Cell, status: Status, steps: nat, done: bool)

  /** What `move` returns: the new position, the reward and the `done` flag. */
  datatype Observation = Observation(next: Cell, reward: int, done: bool)

  /** The result of one of the `_move_*` helpers: the position it proposes and the status it sets. */
  datatype Outcome = Outcome(pos: Cell, status: Status)

  /** A layout as the constructor builds it: the goal in the last corner, a budget of one step per cell. */
  predicate WellFormed(lay: Layout)
  {
    lay.goal == Cell(lay.rows - 1, lay.cols - 1) && lay.maxSteps == lay.rows * lay.cols
  }

  /** The cell one step away in direction `d`. */
  function Neighbour(c: Cell, d: Direction): Cell
  {
    match d
    case Right => Cell(c.row, c.col + 1)
    case Left => Cell(c.row, c.col - 1)
    case Down => Cell(c.row + 1, c.col)
    case Up => Cell(c.row - 1, c.col)
  }

  /** The fence test each `_move_*` helper makes on its candidate cell. */
  predicate CrossesFence(lay: Layout, n: Cell, d: Direction)
  {
    match d
    case Right => n.col == lay.cols
    case Left => n.col < 0
    case Down => n.row == lay.rows
    case Up => n.row < 0
  }

  /** `_move_right`, `_move_left`, `_move_down` and `_move_up`: the fence check, then the wall check. */
  function Attempt(lay: Layout, pos: Cell, d: Direction): (a: Outcome)
    ensures a.pos == pos || a.pos == Neighbour(pos, d)
    ensures a.pos == pos <==> a.status != Normal
    ensures a.status != AtGoal
    ensures a.status == Normal ==> a.pos !in lay.walls
  {
    var n := Neighbour(pos, d);
    if CrossesFence(lay, n, d) then Outcome(pos, InFence)
    else if n in lay.walls then Outcome(pos, InWall)
    else Outcome(n, Normal)
  }

  /** From inside the grid, the fence test fires exactly when the neighbour is outside the grid. */
  lemma CrossesFenceIffOutside(lay: Layout, pos: Cell, d: Direction)
    requires InGrid(lay.rows, lay.cols, pos)
    ensures CrossesFence(lay, Neighbour(pos, d), d) <==> !InGrid(lay.rows, lay.cols, Neighbour(pos, d))
  {
  }

  /**
   * The classification a helper makes, for a car inside the grid: fence when the neighbour is
   * outside (whether or not it is also listed as a wall), wall when it is inside and listed,
   * and otherwise the move to the neighbour is accepted.
   */
  lemma AttemptClassified(lay: Layout, pos: Cell, d: Direction)
    requires InGrid(lay.rows, lay.cols, pos)
    ensures var a, n := Attempt(lay, pos, d), Neighbour(pos, d);
      && (a.status == InFence <==> !InGrid(lay.rows, lay.cols, n))
      && (a.status == InWall <==> InGrid(lay.rows, lay.cols, n) && n in lay.walls)
      && (a.status == Normal <==> InGrid(lay.rows, lay.cols, n) && n !in lay.walls)
      && (a.status == Normal ==> a.pos == n)
  {
  }

  /** `move`: the helper's proposal, one step of budget, then the goal override. */
  function Transition(lay: Layout, ep: EpisodeState, d: Direction): (r: EpisodeState)
    ensures r.steps == ep.steps + 1
    ensures ep.done ==> r.done
    ensures r.status == AtGoal <==> r.car == lay.goal
    ensures r.car == lay.goal ==> r.done
    ensures r.car != lay.goal ==> r.status == Attempt(lay, ep.car, d).status
    ensures r.car != lay.goal ==> (r.done <==> ep.done || r.steps == lay.maxSteps)
  {
    var a := Attempt(lay, ep.car, d);
    var steps := ep.steps + 1;
    var done := if steps == lay.maxSteps then true else ep.done;
    if Equal(a.pos, lay.goal) then EpisodeState(a.pos, AtGoal, steps, true)
    else EpisodeState(a.pos, a.status, steps, done)
  }

  /** The triple `move` returns for the state it has just committed. */
  function Observe(ep: EpisodeState): (o: Observation)
    ensures o.next == ep.car && o.done == ep.done
    ensures o.reward == if ep.status == AtGoal then 100 else if ep.status == Normal then -1 else -5
  {
    RewardTableComplete();
    Observation(ep.car, RewardTable[ep.status], ep.done)
  }

  /** Every status has an entry, so the reward lookup of `move` never misses, and only the goal pays. */
  lemma RewardTableComplete()
    ensures forall s :: s in RewardTable && (RewardTable[s] > 0 <==> s == AtGoal)
  {
    forall s ensures s in RewardTable && (RewardTable[s] > 0 <==> s == AtGoal) {
      match s
      case Normal => assert RewardTable[Normal] == -1;
      case InFence => assert RewardTable[InFence] == -5;
      case InWall => assert RewardTable[InWall] == -5;
      case AtGoal => assert RewardTable[AtGoal] == 100;
    }
  }

  /** A move from inside the grid ends inside the grid. */
  lemma TransitionInGrid(lay: Layout, ep: EpisodeState, d: Direction)
    requires InGrid(lay.rows, lay.cols, ep.car)
    ensures InGrid(lay.rows, lay.cols, Transition(lay, ep, d).car)
  {
  }

  /**
   * The new position is the old one or its neighbour; it is the old one exactly when the
   * neighbour is outside the grid or a wall.
   */
  lemma MoveOutcome(lay: Layout, ep: EpisodeState, d: Direction)
    requires InGrid(lay.rows, lay.cols, ep.car)
    ensures var r, n := Transition(lay, ep, d), Neighbour(ep.car, d);
      && (r.car == ep.car || r.car == n)
      && (r.car == ep.car <==> !InGrid(lay.rows, lay.cols, n) || n in lay.walls)
  {
  }

  /** An accepted move never lands on a wall, and a car off the walls stays off them. */
  lemma TransitionAvoidsWalls(lay: Layout, ep: EpisodeState, d: Direction)
    ensures var r := Transition(lay, ep, d);
      && (r.car != ep.car ==> r.car !in lay.walls)
      && (ep.car !in lay.walls ==> r.car !in lay.walls)
  {
  }

  /** The reward `move` returns, stated from the geometry of the move for a car inside the grid. */
  lemma MoveReward(lay: Layout, ep: EpisodeState, d: Direction)
    requires InGrid(lay.rows, lay.cols, ep.car)
    ensures var r, n := Transition(lay, ep, d), Neighbour(ep.car, d);
      Observe(r).reward ==
        if r.car == lay.goal then 100
        else if !InGrid(lay.rows, lay.cols, n) || n in lay.walls then -5
        else -1
  {
  }

  /** The state after a sequence of moves. */
  function Run(lay: Layout, ep: EpisodeState, ds: seq<Direction>): EpisodeState
    decreases |ds|
  {
    if ds == [] then ep else Run(lay, Transition(lay, ep, ds[0]), ds[1..])
  }

  /** Each move of a run spends exactly one step. */
  lemma {:induction false} RunSteps(lay: Layout, ep: EpisodeState, ds: seq<Direction>)
    ensures Run(lay, ep, ds).steps == ep.steps + |ds|
    decreases |ds|
  {
    if ds != [] {
      RunSteps(lay, Transition(lay, ep, ds[0]), ds[1..]);
    }
  }

  /** No move sets `done` back to false. */
  lemma {:induction false} RunKeepsDone(lay: Layout, ep: EpisodeState, ds: seq<Direction>)
    requires ep.done
    ensures Run(lay, ep, ds).done
    decreases |ds|
  {
    if ds != [] {
      RunKeepsDone(lay, Transition(lay, ep, ds[0]), ds[1..]);
    }
  }

  /** A car that starts inside the grid and off the walls stays inside and off the walls for a whole run. */
  lemma {:induction false} RunStaysSafe(lay: Layout, ep: EpisodeState, ds: seq<Direction>)
    requires InGrid(lay.rows, lay.cols, ep.car) && ep.car !in lay.walls
    ensures InGrid(lay.rows, lay.cols, Run(lay, ep, ds).car) && Run(lay, ep, ds).car !in lay.walls
    decreases |ds|
  {
    if ds != [] {
      TransitionInGrid(lay, ep, ds[0]);
      TransitionAvoidsWalls(lay, ep, ds[0]);
      RunStaysSafe(lay, Transition(lay, ep, ds[0]), ds[1..]);
    }
  }

  /** A run that reaches the step budget ends the episode, whether or not the goal was reached. */
  lemma {:induction false} RunExhaustsBudget(lay: Layout, ep: EpisodeState, ds: seq<Direction>)
    requires ep.steps < lay.maxSteps <= ep.steps + |ds|
    ensures Run(lay, ep, ds).done
    decreases |ds|
  {
    var next := Transition(lay, ep, ds[0]);
    if next.steps == lay.maxSteps {
      RunKeepsDone(lay, next, ds[1..]);
    } else {
      RunExhaustsBudget(lay, next, ds[1..]);
    }
  }

  /** A run that ends on the goal reports the goal status and a finished episode. */
  lemma {:induction false} RunEndsAtGoal(lay: Layout, ep: EpisodeState, ds: seq<Direction>)
    requires ds != [] && Run(lay, ep, ds).car == lay.goal
    ensures Run(lay, ep, ds).status == AtGoal && Run(lay, ep, ds).done
    decreases |ds|
  {
    if |ds| > 1 {
      RunEndsAtGoal(lay, Transition(lay, ep, ds[0]), ds[1..]);
    }
  }

  /** Stepping up from the top row is refused by the fence and costs 5. */
  lemma FenceExample(lay: Layout, col: int)
    requires lay.goal.row != 0
    ensures var r := Transition(lay, EpisodeState(Cell(0, col), Normal, 0, false), Up);
      r.car == Cell(0, col) && r.status == InFence && Observe(r).reward == -5
  {
  }

  /** A 2 by 2 grid without walls: stepping right from (1,0) reaches the goal, pays 100 and ends the episode. */
  lemma GoalExample()
    ensures var lay := Layout(2, 2, [], Cell(1, 1), 4);
      Observe(Transition(lay, EpisodeState(Cell(1, 0), Normal, 0, false), Right)) == Observation(Cell(1, 1), 100, true)
  {
  }

  /** A 2 by 2 grid: four moves into the fence end the episode on the budget, away from the goal. */
  lemma BudgetExample()
    ensures var lay := Layout(2, 2, [], Cell(1, 1), 4);
      var r := Run(lay, EpisodeState(Cell(0, 0), Normal, 0, false), [Up, Left, Up, Left]);
      r.car == Cell(0, 0) && r.status == InFence && r.done
  {
  }
}
