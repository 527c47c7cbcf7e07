/**
 * What the game rules guarantee: about power-up pickups, about one tick, and
 * about any session of key presses, ticks and button clicks.
 */
module Properties {
  import opened Wrappers
  import opened Grid
  import opened Clock
  import opened Rules

  // ------------------------------------------------------------ power-ups

  /** How many of the power-ups lie at `c`. */
  function CountAt(ps: seq<PowerUp>, c: Cell): nat
  {
    if |ps| == 0 then 0
    else CountAt(ps[..|ps| - 1], c) + (if ps[|ps| - 1].at == c then 1 else 0)
  }

  /** How many speed power-ups lie at `c`. */
  function SpeedPickups(ps: seq<PowerUp>, c: Cell): nat
  {
    if |ps| == 0 then 0
    else
      var last := ps[|ps| - 1];
      SpeedPickups(ps[..|ps| - 1], c) + (if last.at == c && last.kind == Speed then 1 else 0)
  }

  /** Every power-up not at the head is kept, and nothing else appears. */
  lemma {:induction false} RemainingKeepsOthers(ps: seq<PowerUp>, c: Cell, p: PowerUp)
    ensures p in Remaining(ps, c) <==> p in ps && p.at != c
  {
    if |ps| > 0 {
      RemainingKeepsOthers(ps[..|ps| - 1], c, p);
      assert ps == ps[..|ps| - 1] + [ps[|ps| - 1]];
    }
  }

  /** Exactly the power-ups at the head are taken away. */
  lemma {:induction false} RemainingCount(ps: seq<PowerUp>, c: Cell)
    ensures |Remaining(ps, c)| == |ps| - CountAt(ps, c)
  {
    if |ps| > 0 {
      RemainingCount(ps[..|ps| - 1], c);
    }
  }

  lemma {:induction false} RemainingNoneAt(ps: seq<PowerUp>, c: Cell)
    requires forall i :: 0 <= i < |ps| ==> ps[i].at != c
    ensures Remaining(ps, c) == ps
  {
    if |ps| > 0 {
      RemainingNoneAt(ps[..|ps| - 1], c);
      assert ps[..|ps| - 1] + [ps[|ps| - 1]] == ps;
    }
  }

  lemma {:induction false} RemainingAppend(a: seq<PowerUp>, b: seq<PowerUp>, c: Cell)
    ensures Remaining(a + b, c) == Remaining(a, c) + Remaining(b, c)
  {
    if |b| == 0 {
      assert a + b == a;
    } else {
      var ab, init, last := a + b, b[..|b| - 1], b[|b| - 1];
      assert ab[..|ab| - 1] == a + init;
      assert ab[|ab| - 1] == last;
      var tail := if last.at == c then [] else [last];
      assert Remaining(ab, c) == Remaining(a + init, c) + tail;
      assert Remaining(b, c) == Remaining(init, c) + tail;
      RemainingAppend(a, init, c);
    }
  }

  /** Landing on one power-up removes exactly that entry and keeps the others in order. */
  lemma PickupRemovesThatEntry(ps: seq<PowerUp>, c: Cell, k: nat)
    requires k < |ps| && ps[k].at == c
    requires forall i :: 0 <= i < |ps| && i != k ==> ps[i].at != c
    ensures Remaining(ps, c) == ps[..k] + ps[k + 1..]
  {
    assert ps == ps[..k] + [ps[k]] + ps[k + 1..];
    RemainingAppend(ps[..k] + [ps[k]], ps[k + 1..], c);
    RemainingAppend(ps[..k], [ps[k]], c);
    RemainingNoneAt(ps[..k], c);
    RemainingNoneAt(ps[k + 1..], c);
    assert Remaining([ps[k]], c) == Remaining([], c) + [];
  }

  /** With no power-up at the head, neither the list nor the speed changes. */
  lemma NothingToPickUp(speed: int, ps: seq<PowerUp>, c: Cell)
    requires forall i :: 0 <= i < |ps| ==> ps[i].at != c
    ensures Remaining(ps, c) == ps && SpeedAfterPickups(speed, ps, c) == speed
  {
    RemainingNoneAt(ps, c);
    SpeedAfterPickupsClosedForm(speed, ps, c);
    SpeedPickupsAtMostCount(ps, c);
    RemainingCount(ps, c);
  }

  lemma {:induction false} SpeedPickupsAtMostCount(ps: seq<PowerUp>, c: Cell)
    ensures SpeedPickups(ps, c) <= CountAt(ps, c)
  {
    if |ps| > 0 {
      SpeedPickupsAtMostCount(ps[..|ps| - 1], c);
    }
  }

  /** k speed pickups lower the interval by 10 each, clamped at 50. */
  lemma {:induction false} SpeedAfterPickupsClosedForm(speed: int, ps: seq<PowerUp>, c: Cell)
    ensures var k := SpeedPickups(ps, c);
      SpeedAfterPickups(speed, ps, c) == if k == 0 then speed else Max(speed - SPEED_STEP * k, MIN_SPEED)
  {
    if |ps| > 0 {
      SpeedAfterPickupsClosedForm(speed, ps[..|ps| - 1], c);
    }
  }

  /** The interval never drops below 50 or rises, and stays put once it is 50. */
  lemma SpeedFloor(speed: int, ps: seq<PowerUp>, c: Cell)
    requires speed >= MIN_SPEED
    ensures MIN_SPEED <= SpeedAfterPickups(speed, ps, c) <= speed
    ensures speed == MIN_SPEED ==> SpeedAfterPickups(speed, ps, c) == MIN_SPEED
  {
    SpeedAfterPickupsClosedForm(speed, ps, c);
  }

  // ------------------------------------------------------------- one tick

  /** The new head: one step from the old head in the current direction. */
  function NextHead(st: State): Cell
    requires |st.snake| >= 1
  {
    Step(st.snake[0], st.direction)
  }

  /**
   * A tick moves the head one cell. Off the food the tail is dropped, so the
   * snake keeps its length and every segment takes its predecessor's cell; on
   * the food the tail stays, the snake grows by one, the score moves by the
   * food's points, new food appears and the level rises by at most one.
   */
  lemma TickMoves(st: State, spawn: Food)
    requires |st.snake| >= 1 && !st.isPaused
    ensures var r, head, n := GameLoop(st, spawn), NextHead(st), |st.snake|;
      && r.snake[0] == head
      && (!Eats(head, st.food) ==>
            && r.snake == [head] + st.snake[..n - 1]
            && |r.snake| == n
            && (forall i :: 1 <= i < n ==> r.snake[i] == st.snake[i - 1])
            && r.score == st.score && r.level == st.level && r.food == st.food)
      && (Eats(head, st.food) ==>
            && r.snake == [head] + st.snake
            && |r.snake| == n + 1
            && r.score == st.score + Points(st.food)
            && r.food == Some(spawn)
            && (r.level == st.level || r.level == st.level + 1)
            && (r.level == st.level + 1 <==> r.score >= st.level * POINTS_PER_LEVEL))
  {
  }

  /**
   * A tick ends the game exactly when the new head is off the board, on a
   * segment behind it, or on an obstacle; the best score then becomes the
   * larger of it and the score. Power-ups at the head are picked up either way.
   */
  lemma TickCollides(st: State, spawn: Food)
    requires |st.snake| >= 1 && !st.isPaused
    ensures var r, head := GameLoop(st, spawn), NextHead(st);
      && (r.gameStarted <==>
            st.gameStarted && InBounds(head) && head !in r.snake[1..] && head !in st.obstacles)
      && (Collides(r.snake, st.obstacles) ==> r.highScore == Max(st.highScore, r.score))
      && (!Collides(r.snake, st.obstacles) ==> r.highScore == st.highScore)
      && r.powerUps == Remaining(st.powerUps, head)
      && r.speed == SpeedAfterPickups(st.speed, st.powerUps, head)
      && r.obstacles == st.obstacles && r.portals == st.portals
      && r.direction == st.direction && !r.isPaused
  {
  }

  /**
   * The tail leaves its cell before the self check, so stepping into the cell
   * the tail just left is a collision exactly when the snake eats there (and
   * keeps its tail).
   */
  lemma TailCellIsFree(st: State, spawn: Food)
    requires |st.snake| >= 2 && NoRepeats(st.snake) && !st.isPaused
    requires NextHead(st) == st.snake[|st.snake| - 1]
    ensures var r := GameLoop(st, spawn);
      NextHead(st) in r.snake[1..] <==> Eats(NextHead(st), st.food)
  {
    var s, head := st.snake, NextHead(st);
    var r := GameLoop(st, spawn);
    TickMoves(st, spawn);
    if Eats(head, st.food) {
      assert r.snake[1..] == s;
      assert s[|s| - 1] in s;
    } else {
      assert r.snake[1..] == s[..|s| - 1];
    }
  }

  /**
   * Stepping back onto the segment behind the head ends the game when the
   * snake has at least three cells; with two, that segment is the tail, which
   * moves away first (TailCellIsFree).
   */
  lemma {:induction false} NeckIsFatal(st: State, spawn: Food)
    requires |st.snake| >= 3 && !st.isPaused
    requires NextHead(st) == st.snake[1]
    ensures !GameLoop(st, spawn).gameStarted
  {
    var r, head, n := GameLoop(st, spawn), NextHead(st), |st.snake|;
    TickMoves(st, spawn);
    if Eats(head, st.food) {
      assert r.snake == [head] + st.snake;
    } else {
      assert r.snake == [head] + st.snake[..n - 1];
    }
    assert r.snake[1..][1] == st.snake[1];
    TickCollides(st, spawn);
  }

  /**
   * The direction rule looks only at the current direction, and that changes
   * on every key press, not once per tick. Moving right, "ArrowUp" then
   * "ArrowLeft" before the next tick reverses the snake, and a running snake
   * of three cells in a row then runs into itself on that tick, whatever the
   * food, power-ups and obstacles.
   */
  lemma TwoKeysReverse(st: State, spawn: Food)
    requires st.snake == [Cell(5, 5), Cell(4, 5), Cell(3, 5)] && st.direction == RIGHT
    requires st.gameStarted && !st.isPaused
    ensures ChangeDirection(ChangeDirection(st, "ArrowUp"), "ArrowLeft").direction == Opposite(st.direction)
    ensures !GameLoop(ChangeDirection(ChangeDirection(st, "ArrowUp"), "ArrowLeft"), spawn).gameStarted
  {
    var turned := ChangeDirection(ChangeDirection(st, "ArrowUp"), "ArrowLeft");
    assert turned.direction == LEFT;
    assert NextHead(turned) == turned.snake[1];
    NeckIsFatal(turned, spawn);
  }

  // ---------------------------------------------------- the game invariant

  /**
   * What holds on every reachable state: the direction is a unit vector, the
   * interval is at least 50, the level at least 1, the snake is a chain of
   * touching cells, and while a game runs the snake is on the board and never
   * covers a cell twice.
   */
  predicate Safe(st: State)
  {
    && IsUnit(st.direction)
    && st.speed >= MIN_SPEED
    && st.level >= 1
    && Contiguous(st.snake)
    && (st.gameStarted ==> |st.snake| >= 1 && NoRepeats(st.snake) && AllInBounds(st.snake))
  }

  /** Adding a head one step ahead of `s` to `s`, or to `s` without its tail. */
  lemma {:induction false} GrowSnake(s: seq<Cell>, body: seq<Cell>, d: Direction)
    requires |s| >= 1 && IsUnit(d) && Contiguous(s)
    requires body == s || body == s[..|s| - 1]
    ensures Contiguous([Step(s[0], d)] + body)
    ensures NoRepeats(s) && Step(s[0], d) !in body ==> NoRepeats([Step(s[0], d)] + body)
    ensures AllInBounds(s) && InBounds(Step(s[0], d)) ==> AllInBounds([Step(s[0], d)] + body)
  {
    var t := [Step(s[0], d)] + body;
    forall i | 0 <= i < |t| - 1
      ensures Adjacent(t[i], t[i + 1])
    {
      if i > 0 {
        assert t[i] == s[i - 1] && t[i + 1] == s[i];
      }
    }
    if NoRepeats(s) && Step(s[0], d) !in body {
      forall i, j | 0 <= i < j < |t|
        ensures t[i] != t[j]
      {
        if i > 0 {
          assert t[i] == s[i - 1] && t[j] == s[j - 1];
        } else {
          assert t[j] == body[j - 1];
        }
      }
    }
    if AllInBounds(s) && InBounds(Step(s[0], d)) {
      forall i | 0 <= i < |t|
        ensures InBounds(t[i])
      {
        if i > 0 {
          assert t[i] == s[i - 1];
        }
      }
    }
  }

  lemma TickKeepsSafe(st: State, spawn: Food)
    requires Safe(st) && |st.snake| >= 1
    ensures Safe(GameLoop(st, spawn))
  {
    if !st.isPaused {
      var r, s := GameLoop(st, spawn), st.snake;
      TickMoves(st, spawn);
      TickCollides(st, spawn);
      SpeedFloor(st.speed, st.powerUps, NextHead(st));
      var body := r.snake[1..];
      assert r.snake == [NextHead(st)] + body;
      assert body == s || body == s[..|s| - 1];
      GrowSnake(s, body, st.direction);
    }
  }

  // ------------------------------------------------------------- sessions

  /** What can happen to the page: a key press, a timer tick, a button or the difficulty menu. */
  datatype Input =
    | KeyDown(key: string)
    | Tick(spawn: Food)
    | Start(spawn: Food)
    | Pause
    | Restart(spawn: Food)
    | Difficulty(value: string)

  /**
   * The effect of one input. No timer runs before the first game is started
   * (the snake is still empty then), so a tick does nothing in that state.
   */
  function Apply(st: State, e: Input): State
  {
    match e
    case KeyDown(key) => ChangeDirection(st, key)
    case Tick(spawn) => if |st.snake| == 0 then st else GameLoop(st, spawn)
    case Start(spawn) => StartGame(st, spawn)
    case Pause => TogglePause(st)
    case Restart(spawn) => RestartGame(st, spawn)
    case Difficulty(value) => AdjustDifficulty(st, value)
  }

  lemma ApplyKeepsSafe(st: State, e: Input)
    requires Safe(st)
    ensures Safe(Apply(st, e))
    ensures Apply(st, e).highScore >= st.highScore
  {
    match e {
      case KeyDown(key) =>
        TurnRule(st.direction, KeyDirection(key));
      case Tick(spawn) =>
        if |st.snake| > 0 {
          TickKeepsSafe(st, spawn);
          if !st.isPaused {
            TickCollides(st, spawn);
          }
        }
      case Start(spawn) =>
      case Pause =>
      case Restart(spawn) =>
      case Difficulty(value) =>
    }
  }

  /** The state after a whole session of inputs; it stays Safe and the best score never drops. */
  function Run(st: State, es: seq<Input>): (r: State)
    requires Safe(st)
    ensures Safe(r)
    ensures r.highScore >= st.highScore
    decreases |es|
  {
    if |es| == 0 then st
    else
      ApplyKeepsSafe(st, es[0]);
      Run(Apply(st, es[0]), es[1..])
  }

  /** From page load, any session of inputs keeps every state Safe. */
  lemma SessionIsSafe(storedHighScore: int, es: seq<Input>)
    ensures Safe(Run(Initial(storedHighScore), es))
    ensures Run(Initial(storedHighScore), es).highScore >= storedHighScore
  {
  }
}
