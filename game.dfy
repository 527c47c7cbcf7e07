/**
 * The page's global game variables as one object, and the page's functions
 * as methods that update them in place. Most methods are proved to leave the
 * object in the state the matching function of Rules computes; ResetGame,
 * ActivatePowerUp and the three scans of CheckCollisions state their effect
 * field by field.
 */
module SnakeGame {
  import opened Wrappers
  import opened Grid
  import opened Clock
  import opened Rules

  class Game {
    var snake: seq<Cell>
    var food: Option<Food>
    var powerUps: seq<PowerUp>
    var obstacles: seq<Cell>
    var portals: seq<Cell>
    var direction: Direction
    var speed: int
    var score: int
    var highScore: int
    var level: int
    var gameTime: nat
    var timeText: string
    var isPaused: bool
    var gameStarted: bool

    /** The object's fields as one value. */
    function Model(): State
      reads this
    {
      State(snake, food, powerUps, obstacles, portals, direction, speed, score, highScore,
            level, gameTime, timeText, isPaused, gameStarted)
    }

    /** The variables as the page declares them; the best score is read from storage. */
    constructor (storedHighScore: int)
      ensures Model() == Initial(storedHighScore)
    {
      snake := [];
      food := None;
      powerUps := [];
      obstacles := [];
      portals := [];
      direction := RIGHT;
      speed := INITIAL_SPEED;
      score := 0;
      highScore := storedHighScore;
      level := 1;
      gameTime := 0;
      timeText := "";
      isPaused := false;
      gameStarted := false;
    }

    method StartGame(spawn: Food)
      modifies this`snake, this`direction, this`score, this`level, this`gameTime, this`isPaused,
        this`food, this`powerUps, this`obstacles, this`portals, this`gameStarted
      ensures Model() == Rules.StartGame(old(Model()), spawn)
    {
      if gameStarted {
        return;
      }
      ResetGame(spawn);
      gameStarted := true;
      isPaused := false;
    }

    /** One timer tick; `spawn` is the food generated if the snake eats. */
    method GameLoop(spawn: Food)
      requires |snake| >= 1
      modifies this`gameTime, this`timeText, this`snake, this`score, this`food, this`level,
        this`powerUps, this`speed, this`gameStarted, this`highScore
      ensures Model() == Rules.GameLoop(old(Model()), spawn)
    {
      if isPaused {
        return;
      }
      UpdateGameTime();
      MoveSnake(spawn);
      CheckCollisions();
    }

    method ResetGame(spawn: Food)
      modifies this`snake, this`direction, this`score, this`level, this`gameTime, this`isPaused,
        this`food, this`powerUps, this`obstacles, this`portals
      ensures snake == [START_CELL] && direction == RIGHT && score == 0 && level == 1
      ensures gameTime == 0 && !isPaused && food == Some(spawn)
      ensures powerUps == [] && obstacles == [] && portals == []
    {
      snake := [START_CELL];
      direction := RIGHT;
      score := 0;
      level := 1;
      gameTime := 0;
      isPaused := false;
      food := Some(spawn);
      powerUps := [];
      obstacles := [];
      portals := [];
    }

    method TogglePause()
      modifies this`isPaused
      ensures Model() == Rules.TogglePause(old(Model()))
    {
      isPaused := !isPaused;
    }

    method RestartGame(spawn: Food)
      modifies this`snake, this`direction, this`score, this`level, this`gameTime, this`isPaused,
        this`food, this`powerUps, this`obstacles, this`portals, this`gameStarted
      ensures Model() == Rules.RestartGame(old(Model()), spawn)
    {
      gameStarted := false;
      StartGame(spawn);
    }

    /** `value` is the selected entry of the difficulty menu. */
    method AdjustDifficulty(value: string)
      modifies this`speed
      ensures Model() == Rules.AdjustDifficulty(old(Model()), value)
    {
      speed := DifficultySpeed(value, speed);
    }

    /** `key` is the name of the pressed key. */
    method ChangeDirection(key: string)
      modifies this`direction
      ensures Model() == Rules.ChangeDirection(old(Model()), key)
    {
      var wanted := KeyDirection(key);
      if wanted == Some(UP) && direction.y == 0 {
        direction := UP;
      } else if wanted == Some(DOWN) && direction.y == 0 {
        direction := DOWN;
      } else if wanted == Some(LEFT) && direction.x == 0 {
        direction := LEFT;
      } else if wanted == Some(RIGHT) && direction.x == 0 {
        direction := RIGHT;
      }
    }

    method MoveSnake(spawn: Food)
      requires |snake| >= 1
      modifies this`snake, this`score, this`food, this`level
      ensures Model() == Rules.MoveSnake(old(Model()), spawn)
    {
      var head := Step(snake[0], direction);
      snake := [head] + snake;
      if Eats(head, food) {
        EatFood(spawn);
      } else {
        snake := snake[..|snake| - 1];
      }
    }

    method EatFood(spawn: Food)
      modifies this`score, this`food, this`level
      ensures Model() == Rules.EatFood(old(Model()), spawn)
    {
      score := score + Points(food);
      food := Some(spawn);
      if score >= level * POINTS_PER_LEVEL {
        LevelUp();
      }
    }

    method LevelUp()
      modifies this`level
      ensures Model() == Rules.LevelUp(old(Model()))
    {
      level := level + 1;
    }

    method UpdateGameTime()
      modifies this`gameTime, this`timeText
      ensures Model() == Rules.UpdateGameTime(old(Model()))
    {
      gameTime := gameTime + 1;
      var minutes := gameTime / SECONDS_PER_MINUTE;
      var seconds := gameTime % SECONDS_PER_MINUTE;
      timeText := Pad2(minutes) + ":" + Pad2(seconds);
    }

    method EndGame()
      modifies this`gameStarted, this`highScore
      ensures Model() == Rules.EndGame(old(Model()))
    {
      gameStarted := false;
      if score > highScore {
        highScore := score;
      }
    }

    method ActivatePowerUp(kind: PowerUpKind)
      modifies this`speed
      ensures speed == Rules.ActivatePowerUp(old(speed), kind)
    {
      if kind == Speed {
        speed := Max(speed - SPEED_STEP, MIN_SPEED);
      }
    }

    /**
     * The wall check, then one scan per list: segments behind the head,
     * power-ups (each one at the head is activated and removed from the
     * current list) and obstacles. Every hit ends the game again.
     */
    method CheckCollisions()
      requires |snake| >= 1
      modifies this`powerUps, this`speed, this`gameStarted, this`highScore
      ensures Model() == Rules.CheckCollisions(old(Model()))
    {
      ghost var start := Model();
      var head := snake[0];
      CheckCollisionsInOrder(start);
      if !InBounds(head) {
        EndGame();
      }
      ScanSegments(head);
      ghost var scanned := Model();
      PickUpPowerUps(head);
      assert Model() == scanned.(powerUps := Remaining(start.powerUps, head),
                                 speed := SpeedAfterPickups(start.speed, start.powerUps, head));
      ScanObstacles(head);
    }

    /** The self check: every segment after the head that lies on `head` ends the game. */
    method ScanSegments(head: Cell)
      requires |snake| >= 1
      modifies this`gameStarted, this`highScore
      ensures Model() == if head in old(snake)[1..] then Rules.EndGame(old(Model())) else old(Model())
    {
      ghost var start := Model();
      var i := 1;
      while i < |snake|
        invariant 1 <= i <= |snake| && snake == start.snake
        invariant Model() == if head in snake[1..i] then Rules.EndGame(start) else start
      {
        assert snake[1..i + 1] == snake[1..i] + [snake[i]];
        if snake[i] == head {
          EndGame();
        }
        i := i + 1;
      }
      assert snake[1..i] == snake[1..];
    }

    /** Activates and removes, one by one, the power-ups lying on `head`. */
    method PickUpPowerUps(head: Cell)
      modifies this`powerUps, this`speed
      ensures powerUps == Remaining(old(powerUps), head)
      ensures speed == SpeedAfterPickups(old(speed), old(powerUps), head)
    {
      var picks, startSpeed := powerUps, speed;
      var kept: seq<PowerUp> := [];
      var j := 0;
      while j < |picks|
        invariant 0 <= j <= |picks|
        invariant kept == Remaining(picks[..j], head)
        invariant powerUps == kept + picks[j..]
        invariant speed == SpeedAfterPickups(startSpeed, picks[..j], head)
      {
        PickupStep(picks, j, head, startSpeed);
        KeepNext(kept, picks, j);
        if picks[j].at == head {
          ActivatePowerUp(picks[j].kind);
          powerUps := kept + picks[j + 1..];
        } else {
          kept := kept + [picks[j]];
        }
        j := j + 1;
      }
      assert picks[..j] == picks;
    }

    /** Every obstacle lying on `head` ends the game. */
    method ScanObstacles(head: Cell)
      modifies this`gameStarted, this`highScore
      ensures Model() == if head in old(obstacles) then Rules.EndGame(old(Model())) else old(Model())
    {
      ghost var start := Model();
      var k := 0;
      while k < |obstacles|
        invariant 0 <= k <= |obstacles| && obstacles == start.obstacles
        invariant Model() == if head in obstacles[..k] then Rules.EndGame(start) else start
      {
        assert obstacles[..k + 1] == obstacles[..k] + [obstacles[k]];
        if obstacles[k] == head {
          EndGame();
        }
        k := k + 1;
      }
      assert obstacles[..k] == obstacles;
    }
  }
}
