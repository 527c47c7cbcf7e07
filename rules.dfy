/**
 * The game state of the Snake page and one pure function per operation that
 * changes it. These functions are the specification the Game class in
 * game.dfy is proved against.
 */
module Rules {
  import opened Wrappers
  import opened Grid
  import opened Clock

  datatype FoodKind = Normal | Bonus | Golden | Poison

  datatype Food = Food(at: Cell, kind: FoodKind)

  datatype PowerUpKind = Speed | Ghost | Magnet | Shrink | Invincibility

  datatype PowerUp = PowerUp(at: Cell, kind: PowerUpKind)

  /**
   * The page's global variables. `food` is None until the first food is
   * generated (the page starts with an empty object there). `timeText` is the
   * text of the time display, the one piece of the HUD the engine computes.
   */
  datatype State = State(
    snake: seq<Cell>,
    food: Option<Food>,
    powerUps: seq<PowerUp>,
    obstacles: seq<Cell>,
    portals: seq<Cell>,
    direction: Direction,
    speed: int,
    score: int,
    highScore: int,
    level: int,
    gameTime: nat,
    timeText: string,
    isPaused: bool,
    gameStarted: bool)

  const INITIAL_SPEED: int := 100
  const MIN_SPEED: int := 50
  const SPEED_STEP: int := 10
  const POINTS_PER_LEVEL: int := 100
  /** The centre of the board, where every game starts: (15, 15). */
  const START_CELL: Cell := Cell(TILE_COUNT / 2, TILE_COUNT / 2)

  /** The state when the page loads; `storedHighScore` is the persisted best score. */
  function Initial(storedHighScore: int): (st: State)
    ensures st.snake == [] && !st.gameStarted && !st.isPaused
    ensures st.direction == RIGHT && st.speed == INITIAL_SPEED
    ensures st.score == 0 && st.level == 1 && st.highScore == storedHighScore
    ensures st.food == None && st.gameTime == 0 && st.timeText == ""
    ensures st.powerUps == [] && st.obstacles == [] && st.portals == []
  {
    State([], None, [], [], [], RIGHT, INITIAL_SPEED, 0, storedHighScore, 1, 0, "", false, false)
  }

  // ---------------------------------------------------------------- input

  /** The direction an arrow key asks for; None for every other key. */
  function KeyDirection(key: string): (r: Option<Direction>)
    ensures r.Some? ==> IsUnit(r.value)
    ensures r.Some? <==> key in {"ArrowUp", "ArrowDown", "ArrowLeft", "ArrowRight"}
    ensures key == "ArrowUp" ==> r == Some(UP)
    ensures key == "ArrowDown" ==> r == Some(DOWN)
    ensures key == "ArrowLeft" ==> r == Some(LEFT)
    ensures key == "ArrowRight" ==> r == Some(RIGHT)
  {
    if key == "ArrowUp" then Some(UP)
    else if key == "ArrowDown" then Some(DOWN)
    else if key == "ArrowLeft" then Some(LEFT)
    else if key == "ArrowRight" then Some(RIGHT)
    else None
  }

  /**
   * The direction after asking for `wanted`: Up and Down are taken only while
   * moving along x, Left and Right only while moving along y.
   */
  function Turn(d: Direction, wanted: Option<Direction>): (r: Direction)
    ensures r == d || wanted == Some(r)
  {
    if wanted == Some(UP) && d.y == 0 then UP
    else if wanted == Some(DOWN) && d.y == 0 then DOWN
    else if wanted == Some(LEFT) && d.x == 0 then LEFT
    else if wanted == Some(RIGHT) && d.x == 0 then RIGHT
    else d
  }

  /**
   * From a unit direction one key press only ever makes a quarter turn, never
   * reverses, and makes every quarter turn it is asked for. Two presses between
   * ticks can reverse: see Properties.TwoKeysReverse.
   */
  lemma TurnRule(d: Direction, wanted: Option<Direction>)
    requires IsUnit(d)
    ensures IsUnit(Turn(d, wanted)) && Turn(d, wanted) != Opposite(d)
    ensures Turn(d, wanted) != d ==> Perpendicular(Turn(d, wanted), d)
    ensures wanted.Some? && IsUnit(wanted.value) && Perpendicular(wanted.value, d)
      ==> Turn(d, wanted) == wanted.value
  {
    if d == UP || d == DOWN {
      assert d.x == 0 && d.y != 0;
    } else {
      assert d.y == 0 && d.x != 0;
    }
  }

  /** A key press changes at most the direction, and only to the one the key asks for. */
  function ChangeDirection(st: State, key: string): (r: State)
    ensures r == st.(direction := r.direction)
    ensures r.direction == st.direction || KeyDirection(key) == Some(r.direction)
  {
    st.(direction := Turn(st.direction, KeyDirection(key)))
  }

  /** The tick interval a difficulty setting selects; other values keep `speed`. */
  function DifficultySpeed(value: string, speed: int): (r: int)
    ensures value !in {"easy", "medium", "hard", "extreme"} ==> r == speed
    ensures value in {"easy", "medium", "hard", "extreme"} ==> MIN_SPEED <= r <= 150
  {
    match value
    case "easy" => 150
    case "medium" => 100
    case "hard" => 75
    case "extreme" => 50
    case _ => speed
  }

  /** The difficulty menu changes at most the interval, to one of the four listed values. */
  function AdjustDifficulty(st: State, value: string): (r: State)
    ensures r == st.(speed := r.speed)
    ensures r.speed == st.speed || r.speed in {150, 100, 75, 50}
  {
    st.(speed := DifficultySpeed(value, st.speed))
  }

  // ------------------------------------------------------------ lifecycle

  /**
   * A fresh one-cell snake on the board with the given food and empty lists.
   * The interval, the best score, the time text and the started flag are not reset.
   */
  function ResetGame(st: State, spawn: Food): (r: State)
    ensures r.snake == [START_CELL] && InBounds(r.snake[0]) && r.direction == RIGHT
    ensures r.score == 0 && r.level == 1 && r.gameTime == 0 && !r.isPaused && r.food == Some(spawn)
    ensures r.powerUps == [] && r.obstacles == [] && r.portals == []
    ensures r.speed == st.speed && r.highScore == st.highScore && r.timeText == st.timeText
    ensures r.gameStarted == st.gameStarted
  {
    st.(snake := [START_CELL], direction := RIGHT, score := 0, level := 1, gameTime := 0,
        isPaused := false, food := Some(spawn), powerUps := [], obstacles := [], portals := [])
  }

  function StartGame(st: State, spawn: Food): (r: State)
    ensures st.gameStarted ==> r == st
    ensures !st.gameStarted ==> r == ResetGame(st, spawn).(gameStarted := true)
  {
    if st.gameStarted then st else ResetGame(st, spawn).(gameStarted := true, isPaused := false)
  }

  /** Unlike StartGame, a restart resets the game even while one is running. */
  function RestartGame(st: State, spawn: Food): (r: State)
    ensures r == ResetGame(st, spawn).(gameStarted := true)
  {
    StartGame(st.(gameStarted := false), spawn)
  }

  function TogglePause(st: State): (r: State)
    ensures r.isPaused != st.isPaused && r == st.(isPaused := r.isPaused)
  {
    st.(isPaused := !st.isPaused)
  }

  /** The larger of `a` and `b`, as the page's `Math.max`. */
  function Max(a: int, b: int): (r: int)
    ensures r >= a && r >= b && (r == a || r == b)
  {
    if a >= b then a else b
  }

  /** The game is over: `gameStarted` is cleared and the best score kept. */
  function EndGame(st: State): (r: State)
    ensures r.highScore >= st.highScore && r.highScore >= st.score
    ensures r.highScore == st.highScore || r.highScore == st.score
    ensures r == st.(gameStarted := false, highScore := r.highScore)
  {
    st.(gameStarted := false, highScore := Max(st.highScore, st.score))
  }

  // ------------------------------------------------------------- one tick

  function UpdateGameTime(st: State): (r: State)
    ensures r == st.(gameTime := st.gameTime + 1, timeText := r.timeText)
    ensures ParseTime(r.timeText) == Some(r.gameTime)
    ensures r.timeText == FormatTime(r.gameTime)
  {
    FormatTimeRoundTrip(st.gameTime + 1);
    st.(gameTime := st.gameTime + 1, timeText := FormatTime(st.gameTime + 1))
  }

  /** The head lands on the food (the page's initial empty food matches no cell). */
  predicate Eats(head: Cell, food: Option<Food>)
  {
    food.Some? && food.value.at == head
  }

  /** Points for eating `food`: poison, and anything that is not a listed kind, costs 10. */
  function Points(food: Option<Food>): (r: int)
    ensures -10 <= r <= 50 && r != 0
    ensures r > 0 <==> food.Some? && food.value.kind != Poison
  {
    match food
    case Some(Food(_, Normal)) => 10
    case Some(Food(_, Bonus)) => 20
    case Some(Food(_, Golden)) => 50
    case _ => -10
  }

  function LevelUp(st: State): State
  {
    st.(level := st.level + 1)
  }

  function EatFood(st: State, spawn: Food): (r: State)
    ensures r.score == st.score + Points(st.food) && r.food == Some(spawn)
    ensures r.level == st.level || r.level == st.level + 1
    ensures r.level == st.level + 1 <==> r.score >= st.level * POINTS_PER_LEVEL
    ensures r == st.(score := r.score, food := r.food, level := r.level)
  {
    var fed := st.(score := st.score + Points(st.food), food := Some(spawn));
    if fed.score >= fed.level * POINTS_PER_LEVEL then LevelUp(fed) else fed
  }

  function MoveSnake(st: State, spawn: Food): (r: State)
    requires |st.snake| >= 1
    ensures |r.snake| >= 1
  {
    var head := Step(st.snake[0], st.direction);
    var grown := st.(snake := [head] + st.snake);
    if Eats(head, st.food) then EatFood(grown, spawn)
    else grown.(snake := grown.snake[..|grown.snake| - 1])
  }

  /** A power-up pickup changes only the tick interval, and only for `speed`. */
  function ActivatePowerUp(speed: int, kind: PowerUpKind): (r: int)
    ensures kind != Speed ==> r == speed
    ensures kind == Speed ==> r >= MIN_SPEED && r >= speed - SPEED_STEP
    ensures kind == Speed ==> r == MIN_SPEED || r == speed - SPEED_STEP
  {
    if kind == Speed then Max(speed - SPEED_STEP, MIN_SPEED) else speed
  }

  /** The power-ups left after the head picks up every one lying at `c`, in order. */
  function Remaining(ps: seq<PowerUp>, c: Cell): (r: seq<PowerUp>)
    ensures |r| <= |ps|
    ensures forall i :: 0 <= i < |r| ==> r[i].at != c
  {
    if |ps| == 0 then []
    else
      var last := ps[|ps| - 1];
      Remaining(ps[..|ps| - 1], c) + (if last.at == c then [] else [last])
  }

  /** The tick interval after activating, in list order, every power-up lying at `c`. */
  function SpeedAfterPickups(speed: int, ps: seq<PowerUp>, c: Cell): int
  {
    if |ps| == 0 then speed
    else
      var before := SpeedAfterPickups(speed, ps[..|ps| - 1], c);
      var last := ps[|ps| - 1];
      if last.at == c then ActivatePowerUp(before, last.kind) else before
  }

  /** Extending the scanned prefix by one power-up. */
  lemma PickupStep(ps: seq<PowerUp>, j: nat, c: Cell, speed: int)
    requires j < |ps|
    ensures Remaining(ps[..j + 1], c) == Remaining(ps[..j], c) + (if ps[j].at == c then [] else [ps[j]])
    ensures SpeedAfterPickups(speed, ps[..j + 1], c)
      == if ps[j].at == c then ActivatePowerUp(SpeedAfterPickups(speed, ps[..j], c), ps[j].kind)
         else SpeedAfterPickups(speed, ps[..j], c)
  {
    assert ps[..j + 1][..j] == ps[..j];
  }

  /** Moving the first unscanned power-up into the kept prefix. */
  lemma KeepNext(kept: seq<PowerUp>, ps: seq<PowerUp>, j: nat)
    requires j < |ps|
    ensures kept + ps[j..] == (kept + [ps[j]]) + ps[j + 1..]
  {
  }

  /** The head is off the board, on another segment, or on an obstacle. */
  predicate Collides(snake: seq<Cell>, obstacles: seq<Cell>)
    requires |snake| >= 1
  {
    !InBounds(snake[0]) || snake[0] in snake[1..] || snake[0] in obstacles
  }

  function CheckCollisions(st: State): (r: State)
    requires |st.snake| >= 1
    ensures r.snake == st.snake && r.score == st.score && r.level == st.level
    ensures r.gameStarted == (st.gameStarted && !Collides(st.snake, st.obstacles))
  {
    var head := st.snake[0];
    var picked := st.(powerUps := Remaining(st.powerUps, head),
                      speed := SpeedAfterPickups(st.speed, st.powerUps, head));
    if Collides(st.snake, st.obstacles) then EndGame(picked) else picked
  }

  /**
   * The checks in the order the page runs them (wall and self, power-ups,
   * obstacles) give the same state as CheckCollisions: ending the game and
   * picking up power-ups touch different variables.
   */
  lemma CheckCollisionsInOrder(st: State)
    requires |st.snake| >= 1
    ensures var head := st.snake[0];
      var scanned := if !InBounds(head) || head in st.snake[1..] then EndGame(st) else st;
      var picked := scanned.(powerUps := Remaining(st.powerUps, head),
                             speed := SpeedAfterPickups(st.speed, st.powerUps, head));
      CheckCollisions(st) == if head in st.obstacles then EndGame(picked) else picked
  {
  }

  /** One tick of the game timer. */
  function GameLoop(st: State, spawn: Food): (r: State)
    requires |st.snake| >= 1
    ensures st.isPaused ==> r == st
    ensures !st.isPaused ==> r.gameTime == st.gameTime + 1 && |r.snake| >= 1
  {
    if st.isPaused then st else CheckCollisions(MoveSnake(UpdateGameTime(st), spawn))
  }
}
