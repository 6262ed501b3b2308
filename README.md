# Snake and ladder: a verified model of the game engine

This project models the engine of a console Snake-and-Ladder game. It
covers the board's move rule over a fixed table of snakes and ladders, the
players' position and completion state, the controller's subscription of its
move handler, and its turn loop. Players take turns in registration order,
roll a die and move along a track from 0 to 100. A snake or ladder on the
target square redirects the token. A player finishes on landing exactly on 100.

Three modules:

- `Rules` (`rules.dfy`) holds the end square `END_OF_GAME_POSITION = 100` and
  the constant jump table `SNAKES_AND_LADDERS` (ten entries). It also holds the
  die's range, `Random.Next(1, 6)`, so 1..5. Last come the pure move rule
  `CalculateNewPosition` and the completion test `CompletionCheck`. Its
  lemmas state the four cases of the rule and that moves stay on the track.
- `GameSpec` (`game_spec.dfy`) models play on values. A player's state is
  `PlayerState(position, completed, moveHandlers)`, where `moveHandlers`
  counts the subscriptions of the controller's `NextMove` to the player's
  `OnMove` event. A game state is a map from players to states, keyed by the
  player itself.
  - `Setup` adds one handler per entry of the turn order. A player registered
    twice therefore has two entries and two handlers.
  - `Turn` is one call of `Play`. Every handler rolls and resolves a move from
    the position read once at the start. Each handler overwrites the position,
    so the last handler's roll decides; the completion check follows. A turn
    uses as many rolls as the player has handlers.
  - `Pass` is one walk over the turn order. It gives a turn to each entry whose
    player is not completed when the walk reaches it.
  - `Game` runs passes while no player of the order has completed.
  - The die is a finite sequence of rolls.
  - Lemmas cover turn order, the rolls a pass uses, completed players never
    playing again, staying on the board, when the game does not end, and that
    after `Setup` no turn lacks a handler.
- `Engine` (`engine.dfy`) holds the objects.
  - `Player` has fields `position`, `hasCompleted` and `moveHandlers`, which
    its methods update in place. `Play` runs one move per handler, each with its
    own roll.
  - `Board` keeps the players in a `seq` that `AddPlayer` appends to.
  - `GameController.PlayGame` runs `Setup` and then the nested loop. It is
    proved to leave every player in the state that `GameSpec.Game` computes
    from the states `GameSpec.Setup` gives. It reports how the game stopped and
    how many rolls it used.

Each call of a handler becomes a direct call, in the same order: roll,
resolve with `CalculateNewPosition`, set the position (`ChangePosition`), then
set `hasCompleted` from `CompletionCheck`. The die, `new Random().Next(1, 6)`,
becomes the parameter `rolls` of `PlayGame`; roll number `used` is the next
one read.

How the game can stop:

- When a turn needs more rolls than are left, `PlayGame` stops with
  `RollsExhausted`. At that point the original would still be waiting for more
  input.
- With no registered player, the original's outer loop never exits: no one
  can complete, and a pass does nothing. `PlayGame` reports this as
  `NeverEnds` instead of looping. `NeverEndsIffNoPlayers` shows that
  `NeverEnds` is reported exactly when the list is empty.
- With players, the original can also loop for ever. For example, a lone
  player on square 8 who rolls 1 every time goes round 8..27, the ladder 28 to
  53, 53..58 and the snake 59 back to 8, and never completes. With at least
  one player every finished pass uses a roll, so a finite die always stops the
  model. Such an endless game shows up as `RollsExhausted`: `OnesNeverWin`
  proves this for the cycle above, whatever the number of rolls.
- A turn of a player with no move handler is `MoveUnhandled`: the original
  invokes a null `OnMove` event there and throws. `Setup` subscribes every
  registered player first, so `PlayGame` never reports it
  (`GameAfterSetupHasHandlers`).

Behaviour of the code worth knowing:

- Completion is tested only at the top of the outer loop
  (`SnakeAndLadder.Console.cs:169`). The inner `Where` filter is lazy and reads
  each player's flag when the walk reaches it. So a player who completes does
  not stop the pass. Players later in that pass still take their turn, and
  several players can finish in one pass (`LaterPlayerStillPlaysAfterWinner`,
  `TwoWinnersInOnePass`).
- The die yields 1..5, not 1..6: the upper bound of `Random.Next` is
  exclusive. `IsDieValue` and `ValidRolls` follow the code. The move rule
  itself is stated for any roll, so rolls of 6 are covered too.
- The jump table has a chain: 41 goes to 62, and 62 goes to 98. The code does
  one lookup, so a move onto 41 stops at 62 (`SampleMoves`).
- A player added to the board twice has two entries in the turn order and
  two move handlers. Each of its turns uses two rolls, and only the second one's
  move is kept (`PlayerRegisteredTwice`).

## Model

| member | source | states |
|---|---|---|
| `Rules.IsDieValue` | SnakeAndLadder.Console.cs:202-205 | a die value is exactly one of 1, 2, 3, 4, 5, since the upper bound of `Random.Next(1, 6)` is exclusive |
| `Rules.CalculateNewPosition` | SnakeAndLadder.Console.cs:129-146 | the result is the old square, the target square or the table's destination for the target; from a square in 0..100 with a non-negative roll the result is in 0..100 |
| `Rules.CompletionCheck` | SnakeAndLadder.Console.cs:110-113 | a position is complete exactly when it is 100, which is not a trigger of the table |
| `Rules.TableHasTenEntries` | SnakeAndLadder.Console.cs:88-100 | the table has ten entries |
| `Rules.TableInsideTrack` | SnakeAndLadder.Console.cs:88-100 | every trigger and every destination is in 1..99; 100 is not a trigger |
| `Rules.ExactLandingWins` | SnakeAndLadder.Console.cs:131-135 | square plus roll equal to 100 gives 100, and the completion check holds there |
| `Rules.OvershootStays` | SnakeAndLadder.Console.cs:137-139 | square plus roll above 100 leaves the token where it was |
| `Rules.EndIsFixedPoint` | SnakeAndLadder.Console.cs:133-139 | from 100 every positive roll stays at 100 |
| `Rules.JumpIsSingleHop` | SnakeAndLadder.Console.cs:141-143 | a target below 100 that is a trigger yields its destination, with no second lookup |
| `Rules.PlainMove` | SnakeAndLadder.Console.cs:145 | a target below 100 that is not a trigger is the result |
| `Rules.SampleMoves` | SnakeAndLadder.Console.cs:88-100 | the table chains 41 to 62 to 98, yet (40,1) gives 62 and not 98; (1,3) gives 23, (10,2) gives 12, (94,6) gives 100, (96,6) gives 96 |
| `Rules.MoveStaysOnTrack` | SnakeAndLadder.Console.cs:129-146 | from any square in 0..100, a die value in 1..5 yields a square in 0..100 |
| `GameSpec.Turn` | SnakeAndLadder.Console.cs:61-64 | one `Play`, whose handlers (`NextMove`, lines 194-199) each resolve a move from the same start, the last one kept: a turn keeps the player's handlers and sets completed exactly when the new square is 100; from a square in 0..100 with a die value it lands in 0..100 |
| `GameSpec.Setup` | SnakeAndLadder.Console.cs:186-192 | the same players; each gains one move handler per entry it has in the turn order, and nothing else changes |
| `GameSpec.SetupSubscribes` | SnakeAndLadder.Console.cs:186-192 | after Setup every entry of the turn order has at least one move handler |
| `GameSpec.SetupOfFreshPlayers` | SnakeAndLadder.Console.cs:186-192 | distinct players with no handler get exactly one handler each |
| `GameSpec.DistinctOccursOnce` | SnakeAndLadder.Console.cs:188-191 | in a turn order without repeats every entry occurs once, so Setup subscribes it once |
| `GameSpec.Pass` | SnakeAndLadder.Console.cs:171-176 | a pass keeps the set of players and uses rolls from `next` on, no more than exist (their order is stated by `PassOrder`); a finished pass whose first player is not completed uses at least one roll |
| `GameSpec.Game` | SnakeAndLadder.Console.cs:169-177 | the game keeps the set of players and uses rolls from `next` on, no more than exist; a Won game ends with some player of the order completed |
| `GameSpec.PassKeepsHandlers` | SnakeAndLadder.Console.cs:171-176 | a pass changes no player's number of move handlers |
| `GameSpec.SubscribedPassHasHandlers` | SnakeAndLadder.Console.cs:171-176 | when every entry has a handler, no turn of the pass lacks one |
| `GameSpec.PassStopsOnlyForWantOfRolls` | SnakeAndLadder.Console.cs:171-176 | a pass stops for want of rolls only at a player not completed with more handlers than rolls left |
| `GameSpec.PassFrame` | SnakeAndLadder.Console.cs:171-176 | a player not in the turn order is not touched by a pass |
| `GameSpec.PassSkipsCompleted` | SnakeAndLadder.Console.cs:171 | a player completed before the pass is left exactly as it was |
| `GameSpec.PassKeepsOnBoard` | SnakeAndLadder.Console.cs:171-176 | from states on the board and with die values for rolls, a pass keeps every player in 0..100 with completed exactly at 100 |
| `GameSpec.PassUsesOneRollPerHandler` | SnakeAndLadder.Console.cs:171-176 | with distinct subscribed players, a pass finishes if and only if there is one roll per handler of every player not completed, and then uses exactly those rolls |
| `GameSpec.PassOrder` | SnakeAndLadder.Console.cs:171-176 | in a pass that runs to the end of the order, with distinct players, the i-th player, if not completed at the start of the pass, takes one turn decided by the last of its rolls, which follow those of the players before it; otherwise it is unchanged; this holds for players after one that completes |
| `GameSpec.NeverEndsIffNoPlayers` | SnakeAndLadder.Console.cs:169-177 | the game is reported as `NeverEnds` if and only if no player is registered; with players a finite die always stops it |
| `GameSpec.SubscribedGameHasHandlers` | SnakeAndLadder.Console.cs:169-177 | when every entry has a handler, no turn of the game lacks one |
| `GameSpec.GameAfterSetupHasHandlers` | SnakeAndLadder.Console.cs:161-177 | a game started by Setup never reaches a turn without a move handler |
| `GameSpec.GameStopsOnlyForWantOfRolls` | SnakeAndLadder.Console.cs:169-177 | a game stops with the rolls exhausted only at a player not completed with more handlers than rolls left |
| `GameSpec.GameSkipsCompleted` | SnakeAndLadder.Console.cs:169-177 | a completed player is never played again, so its state and its flag never change |
| `GameSpec.GameKeepsOnBoard` | SnakeAndLadder.Console.cs:169-177 | from states on the board and with die values for rolls, every player stays in 0..100 with completed exactly at 100 for the whole game |
| `GameSpec.WinnerIsOnEndSquare` | SnakeAndLadder.Console.cs:169-177 | from states on the board and with die values, a won game ends with some player of the order on square 100 |
| `GameSpec.WonAfterWholePass` | SnakeAndLadder.Console.cs:169-177 | a game won from a state with no one completed ends in the states of a whole pass begun with no one completed, at a roll index not before the game's start, and the game has used exactly the rolls that pass used |
| `Rules.OneStaysInCycle` | SnakeAndLadder.Console.cs:129-146 | a roll of 1 from a square of the cycle 8..27, 53..58 lands on the cycle again, through the ladder 28 to 53 and the snake 59 to 8, never on 100 and never completed |
| `GameSpec.OnesNeverWin` | SnakeAndLadder.Console.cs:169-177 | a lone player on that cycle, not completed and with one move handler, rolling only 1s never wins: with any finite die the game ends as `RollsExhausted`, where the original loops for ever |
| `GameSpec.SinglePlayerScenario` | SnakeAndLadder.Console.cs:171-176 | one player after Setup has one handler; rolling 4 then 6 it climbs the ladder at 4 to 23, then moves to 29 |
| `GameSpec.TurnWithoutSetup` | SnakeAndLadder.Console.cs:61-63 | a player with no move handler stops the game at its first turn, with nothing changed |
| `GameSpec.SetupOfPlayerRegisteredTwice` | SnakeAndLadder.Console.cs:186-192 | a player with two entries gets two handlers |
| `GameSpec.PlayerRegisteredTwice` | SnakeAndLadder.Console.cs:169-177 | that player with rolls 1, 2, 3, 4 moves to 2, then to 6, using all four rolls, and the next pass runs out of rolls |
| `GameSpec.LaterPlayerStillPlaysAfterWinner` | SnakeAndLadder.Console.cs:169-177 | A at 95 rolls 5 and wins, and B, after A in the order, still moves 10 to 13 in the same pass; then the game stops as Won |
| `GameSpec.TwoWinnersInOnePass` | SnakeAndLadder.Console.cs:169-177 | two players both reach 100 in the same pass |
| `Engine.Player.constructor` | SnakeAndLadder.Console.cs:55-59 | a new player has the given name, position 0, is not completed and has no move handler |
| `Engine.Player.AddMoveHandler` | SnakeAndLadder.Console.cs:190 | one more move handler; position and flag unchanged |
| `Engine.Player.ChangePosition` | SnakeAndLadder.Console.cs:72-76 | sets the position to the given value; flag and handlers unchanged |
| `Engine.Player.Play` | SnakeAndLadder.Console.cs:61-70 | with one roll per handler, the new position is the move resolved from the old position with the last roll; the flag is then true exactly when the position is 100; the result is `Turn` of the old state |
| `Engine.Board.constructor` | SnakeAndLadder.Console.cs:85-87 | a new board has no players |
| `Engine.Board.AddPlayer` | SnakeAndLadder.Console.cs:103-108 | appends the player at the end of the players, so registration order is kept |
| `Engine.AnyHasCompleted` | SnakeAndLadder.Console.cs:169 | the loop test over the objects agrees with `AnyCompleted` over their states |
| `Engine.PlayTurn` | SnakeAndLadder.Console.cs:175 | one player's turn with its rolls changes that player's state to `Turn` with the last of them and leaves every other registered player unchanged |
| `Engine.GameController.constructor` | SnakeAndLadder.Console.cs:151-157 | a new controller owns a fresh board with no players |
| `Engine.GameController.Setup` | SnakeAndLadder.Console.cs:186-192 | the players end in the states `GameSpec.Setup` computes from their states before |
| `Engine.GameController.PassEntry` | SnakeAndLadder.Console.cs:171-175 | one entry of the inner loop: the pass from it is either stopped there, with the states unchanged, or the pass from the next entry on the new states |
| `Engine.GameController.PlayPass` | SnakeAndLadder.Console.cs:171-176 | one run of the inner loop leaves the players in the states `Pass` computes and reports how it ended and how many rolls it used |
| `Engine.GameController.PlayPasses` | SnakeAndLadder.Console.cs:169-177 | the outer loop's status, rolls used and final states are those of `Game` from the states before it |
| `Engine.GameController.PlayGame` | SnakeAndLadder.Console.cs:161-178 | the status, rolls used and final states are those of `Game` from the states `Setup` gives; the status is never `MoveUnhandled`; the player list is unchanged |

## Left out

- `Program.Main`, the console prompts, `ReadKey`/`ReadLine`, and the empty-name check on input (SnakeAndLadder.Console.cs:9-38): interactive input and output.
- Every `Console.WriteLine` in `Player`, `Board` and `GameController`, and the wait for the Enter key before each turn (line 174): interactive input and display. That includes the position printed after each handler's move inside a turn with several handlers: only the last one is kept.
- `RollDice` and `System.Random`: the die is the sequence `rolls`. Its range 1..5 is recorded in `IsDieValue`.
- The events and delegates themselves (`OnMove`, `OnReachingEndOfGame`, `PlayerMovementHandler`): an `OnMove` subscription is counted in `moveHandlers`, and invoking the event is a loop over those handlers. The handlers of `OnReachingEndOfGame`, one per `AddPlayer` call, are not counted: all of them are `CompletionCheck`, and the event returns the value of the last one, which is the same.
- Engine.Player.Play: requires one roll per handler and at least one handler. With no handler the original throws on the null event; the callers check for it first and report `MoveUnhandled`, so the throw itself is not modelled.
- `Board.Players`, the property: the model reads the `players` field directly.
- `Board.Clean` and `GameController.EndGame`: they only drop references, and `EndGame` is never called.
- Engine.GameController.PlayGame: when the rolls run out mid-game it returns `RollsExhausted`, where the original would block on input. With no players it returns `NeverEnds` where the original loops forever. A game with players that the original would play for ever (`OnesNeverWin`) ends as `RollsExhausted` once the finite die is used up. A turn that needs more rolls than are left does not take the rolls that are there: the game stops before the turn.
- Machine integers: positions stay in 0..100 and rolls are small, so 32-bit overflow cannot occur, and the model uses unbounded `int`.
