# Snake game engine in Dafny

This project models the game engine of a browser Snake game in `script.js`. The engine is the set of global
variables the page keeps (the snake's cells, the food, power-ups, obstacles, portals, the direction, the tick
interval, the score, the best score, the level, the elapsed seconds and the start/pause flags) and the
functions that change them on key presses, button clicks and timer ticks.

Files:

- `wrappers.dfy`: the `Option` type.
- `grid.dfy`: board constants (a 600-pixel canvas of 20-pixel tiles, so 30 tiles a side), cells,
  direction vectors, and predicates on snakes (`Contiguous`, `NoRepeats`, `AllInBounds`).
- `clock.dfy`: the `mm:ss` time text, and a parser that is its partner.
- `rules.dfy`: the state as one value, `Rules.State`, and one function per engine operation.
- `properties.dfy`: what the rules guarantee. This covers power-up pickups, one tick, and an invariant
  kept over any session of inputs.
- `game.dfy`: class `SnakeGame.Game`, whose fields are the page's globals. Its methods update the fields
  in place, in the page's own order, loops included. Most methods are proved to leave the object in the
  state the matching `Rules` function computes. The exceptions are listed below.
  - `ResetGame` states its new fields one by one.
  - `ActivatePowerUp` states the new interval.
  - The three scans called by `CheckCollisions` (`ScanSegments`, `PickUpPowerUps`, `ScanObstacles`)
    each state their own effect.

Inputs from outside the engine are parameters:

- the pressed key's name;
- the difficulty menu's value;
- the stored best score;
- the food the page generates at random, as `spawn`.

## Model

| member | source | states |
|---|---|---|
| Rules.Initial | script.js:14-27 | The load-time state: empty snake, no food, no power-ups, obstacles or portals, moving right, interval 100, score 0, level 1, time 0 with empty text, best score from storage, neither started nor paused |
| Rules.KeyDirection | script.js:140-151 | Exactly the four arrow keys ask for a direction. Each asks for its own vector (up, down, left, right), a unit vector |
| Rules.Turn | script.js:140-151 | The direction either stays or becomes the one asked for |
| Rules.TurnRule | script.js:140-151 | After one key press from a unit direction, the result is a unit vector and never the reverse. Any change is a quarter turn, and every quarter turn asked for is taken |
| Properties.TwoKeysReverse | script.js:140-151 | Two key presses between ticks ("ArrowUp" then "ArrowLeft" while moving right) do reverse the snake. A running three-cell snake in a row then hits itself on that tick |
| Properties.NeckIsFatal | script.js:153-174 | For a snake of three or more cells, a tick that moves the head back onto the segment behind it ends the game |
| Rules.ChangeDirection | script.js:140-151 | A key press changes at most the direction, and only to the direction the key asks for; partner: TurnRule |
| Rules.DifficultySpeed | script.js:96-112 | The four named levels pick an interval between 50 and 150; any other value keeps the interval |
| Rules.AdjustDifficulty | script.js:96-116 | The menu changes at most the interval, and only to 150, 100, 75 or 50 |
| Rules.ResetGame | script.js:70-84 | The single centre cell (15, 15), which is on the board, moving right, the given food, score 0, level 1, time 0, unpaused, no power-ups, obstacles or portals. The interval, best score, time text and started flag are kept |
| Rules.RestartGame | script.js:90-94 | Always the reset state with the game started, even mid-game (where StartGame would do nothing) |
| Rules.TogglePause | script.js:86-88 | Flips the pause flag and changes nothing else |
| Rules.StartGame | script.js:53-60 | A no-op while a game runs; otherwise the reset state with the game started |
| Rules.Max | script.js:295 | The result is at least both arguments and is one of them |
| Rules.EndGame | script.js:278-289 | Clears the started flag. Keeps the larger of the best score and the score, which is one of the two. Nothing else changes |
| Rules.UpdateGameTime | script.js:265-270 | The counter goes up by one and nothing else changes except the time text. That text is FormatTime of the new counter and parses back to it |
| Rules.Eats | script.js:158 | No contract; the body says the food exists and lies on the head, so the initial empty food never matches. Partner: TickMoves, TailCellIsFree |
| Rules.Points | script.js:245 | Between -10 and 50 and never 0; positive exactly for real non-poison food |
| Rules.LevelUp | script.js:254-258 | No contract; the body adds one to the level. Partner: EatFood's threshold iff |
| Rules.EatFood | script.js:244-258 | The score moves by the food's points and new food appears. The level rises by one exactly when the score reaches level x 100, and otherwise stays |
| Rules.MoveSnake | script.js:153-163 | A snake of at least one cell keeps at least one cell |
| Rules.ActivatePowerUp | script.js:291-309 | Only a speed pickup changes the interval, to the larger of interval - 10 and 50 |
| Rules.Remaining | script.js:176-181 | No power-up left lies at the head, and the list does not grow |
| Rules.SpeedAfterPickups | script.js:176-181 | No contract; the body activates, in list order, each power-up at the head. Partners: SpeedAfterPickupsClosedForm, SpeedFloor |
| Rules.PickupStep | script.js:176-181 | Scanning one more power-up: it is dropped and activated if at the head, and kept otherwise |
| Rules.Collides | script.js:167-186 | No contract; the body is the wall, self and obstacle test. Partners: CheckCollisions, TickCollides |
| Rules.CheckCollisions | script.js:165-192 | Snake, score and level are unchanged. The game stays started exactly when it was started and the head is on the board, off the body and off every obstacle |
| Rules.CheckCollisionsInOrder | script.js:165-186 | The page's order (wall and self check, then pickups, then obstacles) gives the same state as CheckCollisions |
| Rules.GameLoop | script.js:62-68 | A paused tick changes nothing. Otherwise the counter goes up by one and the snake keeps at least one cell |
| Properties.RemainingKeepsOthers | script.js:176-181 | A power-up is left exactly when it was in the list and not at the head |
| Properties.RemainingCount | script.js:176-181 | The list shrinks by exactly the number of power-ups at the head |
| Properties.RemainingNoneAt | script.js:176-181 | With nothing at the head, the list is unchanged |
| Properties.RemainingAppend | script.js:176-181 | Pickup works entry by entry: the result for a split list is the concatenation of the results for its halves |
| Properties.PickupRemovesThatEntry | script.js:176-181 | Landing on a single power-up removes exactly that entry and keeps the rest in order |
| Properties.NothingToPickUp | script.js:176-181 | Off every power-up, the list and the interval are unchanged |
| Properties.SpeedPickupsAtMostCount | script.js:176-181 | Speed pickups are among the pickups at the head |
| Properties.SpeedAfterPickupsClosedForm | script.js:176-181 | k speed pickups give the larger of interval - 10k and 50 |
| Properties.SpeedFloor | script.js:291-296 | From an interval of at least 50, pickups never raise it and never take it below 50, and 50 stays 50 |
| Properties.TickMoves | script.js:153-163 | The head moves one step. Off the food: same length, each segment takes its predecessor's cell, and score, level and food are unchanged. On the food: length + 1, score + points, new food, level + at most one, exactly when the threshold is reached |
| Properties.TickCollides | script.js:165-192 | After a tick the game runs exactly when it ran and the new head is on the board, off the body and off the obstacles. A collision sets the best score to the larger of it and the score. Pickups happen either way, and obstacles, portals and direction are unchanged |
| Properties.TailCellIsFree | script.js:153-174 | Moving into the cell the tail leaves hits the body exactly when the snake eats there |
| Properties.GrowSnake | script.js:153-163 | A head one step ahead keeps the snake contiguous. It also keeps it repeat-free and on the board when the new head is free and on the board |
| Properties.Safe | script.js:14-27 | No contract; the invariant: unit direction, interval >= 50, level >= 1, contiguous snake, and a repeat-free snake on the board while a game runs. Partners: TickKeepsSafe, ApplyKeepsSafe |
| Properties.TickKeepsSafe | script.js:62-68 | A tick keeps the invariant: unit direction, interval >= 50, level >= 1, contiguous snake, and a repeat-free snake on the board while a game runs |
| Properties.Apply | script.js:43-51 | No contract; each page event (key press, start, pause, restart, play again, difficulty, timer tick) dispatched to its operation. Partner: ApplyKeepsSafe |
| Properties.ApplyKeepsSafe | script.js:53-151 | Every key press, tick, button or menu choice keeps the invariant and never lowers the best score |
| Properties.Run | script.js:53-151 | A whole session of inputs keeps the invariant and never lowers the best score |
| Properties.SessionIsSafe | script.js:14-27 | Every session from page load keeps the invariant and never lowers the stored best score |
| Clock.DigitChar | script.js:267-269 | A digit below 10 prints as a digit character |
| Clock.Decimal | script.js:267-269 | A number prints as one or more digits |
| Clock.DecimalRoundTrip | script.js:267-269 | The printed number reads back as itself and has no leading zero |
| Clock.DecimalLength | script.js:267-269 | One digit below 10, two digits from 10 to 99, three or more from 100 |
| Clock.Pad2Value | script.js:267-269 | The zero-padded field reads back as the number. It has at least two characters, and exactly two iff the number is below 100. From 10 on it has no leading zero |
| Clock.Pad2 | script.js:269 | No contract; the body is a '0' before a one-digit number. Partner: Pad2Value |
| Clock.FormatTime | script.js:265-269 | No contract; the body is minutes and seconds, each padded, joined by ':'. Partners: FormatTimeRoundTrip, FormatTimeWidth |
| Clock.FormatTimeRoundTrip | script.js:265-270 | The `mm:ss` text parses back to the elapsed seconds. The parser takes only a seconds field below 60, so the fields must be the minutes and the remaining seconds |
| Clock.FormatTimeWidth | script.js:265-270 | The text is exactly 5 characters, with the colon third, iff the time is under 100 minutes; it is never shorter |
| SnakeGame.Game.constructor | script.js:14-27 | The fields start as Rules.Initial |
| SnakeGame.Game.StartGame | script.js:53-60 | The new fields are Rules.StartGame of the old ones |
| SnakeGame.Game.GameLoop | script.js:62-68 | The new fields are Rules.GameLoop of the old ones |
| SnakeGame.Game.ResetGame | script.js:70-84 | Snake at the centre, moving right, score 0, level 1, time 0, unpaused, the given food, no power-ups, obstacles or portals; nothing else changes |
| SnakeGame.Game.TogglePause | script.js:86-88 | The new fields are Rules.TogglePause of the old ones |
| SnakeGame.Game.RestartGame | script.js:90-94 | The new fields are Rules.RestartGame of the old ones |
| SnakeGame.Game.AdjustDifficulty | script.js:96-116 | The new fields are Rules.AdjustDifficulty of the old ones |
| SnakeGame.Game.ChangeDirection | script.js:140-151 | The new fields are Rules.ChangeDirection of the old ones |
| SnakeGame.Game.MoveSnake | script.js:153-163 | The new fields are Rules.MoveSnake of the old ones |
| SnakeGame.Game.EatFood | script.js:244-252 | The new fields are Rules.EatFood of the old ones |
| SnakeGame.Game.LevelUp | script.js:254-258 | The new fields are Rules.LevelUp of the old ones |
| SnakeGame.Game.UpdateGameTime | script.js:265-270 | The new fields are Rules.UpdateGameTime of the old ones |
| SnakeGame.Game.EndGame | script.js:278-289 | The new fields are Rules.EndGame of the old ones |
| SnakeGame.Game.ActivatePowerUp | script.js:291-309 | The new interval is Rules.ActivatePowerUp of the old one, and nothing else changes |
| SnakeGame.Game.CheckCollisions | script.js:165-192 | The new fields are Rules.CheckCollisions of the old ones |
| SnakeGame.Game.ScanSegments | script.js:170-174 | The game has ended exactly when a segment behind the head lies on it; nothing else changes |
| SnakeGame.Game.PickUpPowerUps | script.js:176-181 | The list becomes Rules.Remaining of the old list, the interval becomes the result of the pickups in order, and nothing else changes |
| SnakeGame.Game.ScanObstacles | script.js:182-186 | The game has ended exactly when an obstacle lies on the head; nothing else changes |

## Left out

- Drawing, the page's text fields, the game-over dialog, sound and theme switching (script.js:118-138, 194-234, 260-263, 272-276) are not modelled. They have no effect on the engine's state. The time text is kept as a field because `updateGameTime` computes it.
- Timers are not modelled. The interval handle, `setInterval` and `clearInterval` are left out, and a tick is an input that may arrive at any time after a game has been set up. As written, `startGame` starts a second interval after `resetGame` has started one, and `endGame` clears only one of them. So ticks keep arriving after the game is over, and `gameLoop` does not test `gameStarted`. The model allows such ticks. The invariant `Properties.Safe` makes promises about the snake only while a game runs.
- Storage is a parameter. Reading the stored best score is the constructor's parameter. Writing it back in `endGame`, and the string-to-number coercion of the stored value, are not modelled.
- Randomness is a parameter. `generateFood` is the `spawn` parameter. The page always places food on the board, but the model does not require that of `spawn`. None of the proofs need it. Nothing in the page keeps the food off the snake.
- The initial `food = {}` is `None`. It matches no cell, and its points would be the -10 fallback branch of `eatFood`.
- Removing a picked power-up by object identity is modelled as removing that entry, by position, from the current list. The scan visits the list as it was when the scan began.
- The ghost, magnet, shrink and invincibility power-ups are not modelled beyond leaving the state unchanged, since the page leaves them unimplemented. The portal scan and `teleportSnake` are left out for the same reason: the page leaves teleporting unimplemented.
- Obstacle types (script.js:31) are not modelled. Nothing in the engine creates obstacles, power-ups or portals; they are lists that reset empties.
- SnakeGame.Game.ResetGame: its contract lists the new fields one by one; it does not compare `Model()` with `Rules.ResetGame`. `Rules.StartGame` connects the two.
- The initial time text is the empty string. The page's own text is set in its HTML, which is not part of this model.
