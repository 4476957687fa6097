# Tic-tac-toe engine with a disturbance counter, in Dafny

This project models the game engine of a browser tic-tac-toe game in which
the human plays X against a random bot playing O. Every human win raises a
"disturbance level". That level drives cosmetic glitches. From level 5 on it
also lets the bot "double-place": it puts two O's down and, after a delay,
takes one of them back.

The engine's state is four module-level variables: the nine-cell board, the
player to move, the active flag and the disturbance level. It changes in
place through five functions of `script.js`.

- `rules.dfy` (module `Rules`) gives that state as a value (`GameState`).
  It gives each operation as a function from the old state to the new one:
  `AfterCheck` (checkResult), `AfterClick` (handleCellClick), `AfterBot`
  (botMove), `AfterRetract` (the delayed retraction) and `AfterReset`
  (resetGame). The eight winning combinations are the constant
  `WinningCombinations`, in the source's order.
- `engine.dfy` (module `Engine`) is the engine as the page runs it. Class
  `Game` holds the board as an `array<Cell>` and the other three variables
  as fields. Its methods follow the source's functions statement by
  statement. Each one is proved to move `State()` exactly as the matching
  `Rules` function says. The two loops of the source are methods with loop
  invariants: the scan of the combinations with its early `break`, and the
  collection of the empty cells.
- `properties.dfy` (module `Properties`) proves what the operations
  promise. Wins are exactly three equal marks in a row, column or diagonal.
  The bot's candidate cells are exactly the empty ones, in ascending order.
  Evaluation ends in a win, a draw, a passed turn, or, in a game already
  over whose board shows neither, no change. A normal bot move adds exactly
  one O where there was none. A double placement followed by its retraction gives
  exactly the state of a normal move. It also holds the concrete scenarios.
- `session.dfy` (module `Session`) covers whole sessions. A session is an
  arbitrary sequence of clicks, bot moves, retractions and resets. The
  disturbance level never decreases and rises by at most one per event.
  Without double placements, every state stays "settled": an active game
  has no won line and still has an empty cell. In a session of clicks and
  normal bot moves no marked cell ever changes.

Randomness comes in as parameters. The two random picks `r1` and `r2` are
indices into the list of available cells. Whenever that list is non-empty
they must be below its length, which is all `Math.floor(Math.random() *
length)` can produce. The 30% coin for the double placement is a boolean.
Scheduling a call with `setTimeout` is modelled as an explicit later step.
`HandleCellClick` returns whether it scheduled the bot. `BotMove` returns
the retraction it scheduled, and `Retract` runs it.

Faithful details that the code has and a reader might not expect:

- A win is credited to `currentPlayer`, not to the mark on the winning
  line. See `WinCreditedToPlayerToMove`.
- A click places `currentPlayer`'s mark, and nothing checks that it is X.
  A second click before the bot has moved is accepted, places an O, and
  passes the turn back to X. See `SecondClickPlacesO`.
- The retraction does not check whether the game is still active. It
  always evaluates the board again. `AfterRetract` takes any state.
- So a retraction still pending when X wins evaluates the won board again,
  and that one win raises the disturbance level a second time
  (script.js:141-148). See `LateRetractionCountsWinAgain`.
- A click index outside 0..8 reads `undefined`, which is not `''`, so the
  click is ignored. The model takes any integer and ignores those indices.
- The retraction always clears the second pick and then sets the first
  pick to O again (script.js:142-146). It never keeps the second mark.
- The double placement writes a cell twice: the second pick is set to O and
  then cleared, and the first pick is set to O twice. That a marked cell is
  never overwritten is therefore proved for single moves
  (`Properties.ClickEffect`, `Properties.BotNormalMove`), for a double
  placement followed straight away by its retraction, which leaves the old
  board with one empty cell set to O (`Properties.DoublePlacementIsNormalMove`),
  and for sessions made of clicks and normal bot moves
  (`Session.MarksNeverOverwritten`).

## Model

| member | source | states |
|---|---|---|
| `Engine.Game.constructor` | script.js:8-11 | The page starts with nine empty cells, X to move, the game active and disturbance level 0. |
| `Engine.Game.PlaceMark` | script.js:57-58 | placeMark writes the player's mark into the given cell; every other cell keeps its value. |
| `Engine.Game.ScanForWin` | script.js:73-88 | The scan over the eight combinations, stopping at the first won one, reports a win exactly when some combination holds three equal non-empty cells. |
| `Engine.Game.CheckResult` | script.js:73-115 | checkResult changes the state exactly as `AfterCheck` does: a win deactivates and, with X to move, adds one to the disturbance level; else a full board deactivates; else the turn toggles if the game is active. The board is not touched. |
| `Engine.Game.HandleCellClick` | script.js:40-55 | A click changes the state exactly as `AfterClick` does (ignored on an occupied cell, an inactive game or no such cell; otherwise the current player's mark is placed and then evaluated). The bot is scheduled exactly when the click was taken and the game is still active. |
| `Engine.Game.AvailableCells` | script.js:120-125 | The loop returns the indices of the empty cells in ascending order, equal to `EmptyIndices` of the board. |
| `Engine.Game.BotMove` | script.js:117-156 | botMove changes the state and reports the pending retraction exactly as `AfterBot` does: no-op when inactive or full; at level 5 or more with the coin set, two O's are placed unevaluated and a retraction is pending; otherwise one O is placed and evaluated. |
| `Engine.Game.Retract` | script.js:141-150 | The delayed step clears the second pick, sets the first pick to O and evaluates, exactly as `AfterRetract` does, whatever the state is by then. |
| `Engine.Game.ResetGame` | script.js:158-161 | resetGame installs a fresh empty board, X to move and an active game, and keeps the disturbance level. |
| `Properties.HasWinUnfolded` | script.js:13-17 | A win means one of the eight listed triples is won; the list is the rows, columns and diagonals written out. |
| `Properties.WinningCombinationsAreTheLines` | script.js:13-17 | A board has a won combination iff one of its three rows, three columns or two diagonals holds three equal marks (both directions). |
| `Properties.EmptyIndicesBelowSpec` | script.js:121-125 | After the loop has looked at the first n cells, it has collected exactly the empty ones among them, in strictly ascending order, and as many as there are empty cells among them. |
| `Properties.EmptyIndicesSpec` | script.js:120-125 | availableCells holds an index iff that cell is `''`. It is strictly ascending, and its length is the number of empty cells. |
| `Properties.CheckOutcomes` | script.js:90-114 | Evaluation leaves the board alone. A win deactivates, keeps the turn, and adds one to the level iff X is to move. Otherwise a full board gives a draw and changes nothing else. Otherwise an active game passes the turn, and an inactive one is left unchanged. The level never drops. |
| `Properties.CheckSettles` | script.js:90-114 | After any evaluation, an active game has no won line and an empty cell. |
| `Properties.SettledGameHasMove` | script.js:103-108 | In an active game that has no won line and no full board, availableCells is non-empty, so the bot always finds a cell. |
| `Properties.ClickEffect` | script.js:44-49 | A click that is not taken changes nothing at all. A taken click writes exactly the clicked cell with the current player's mark, leaves one empty cell fewer, and never overwrites a marked cell. It keeps a settled state settled. |
| `Properties.BotIgnoresInactiveGame` | script.js:118 | The bot leaves an inactive game unchanged and schedules nothing. |
| `Properties.BotNormalMove` | script.js:127-153 | On the normal path the chosen cell was empty. The bot places O there and evaluates. The new board is the old one with only that cell set to O, with one more O and the same number of X's. |
| `Properties.DoublePlacementIsNormalMove` | script.js:132-153 | In the double placement both picks are empty cells and a retraction of those two cells is pending. After it runs, the state equals the one the normal move on the first pick gives, and the board is the old board with only that cell set to O. This holds also when both picks coincide. |
| `Properties.ResetRestartsGame` | script.js:158-161 | Reset gives the initial state with the old disturbance level. That state is settled, and every cell accepts a click. |
| `Properties.CentreOpening` | script.js:44-54 | From the initial state, X at index 4 is no win; the turn passes to O and the game stays active with level 0. |
| `Properties.TopRowWinByX` | script.js:90-96 | X completing the top row with X to move ends the game and adds exactly one to the level, the turn staying with X. |
| `Properties.FullBoardDraw` | script.js:103-107 | A full board with no three in a row ends the game as a draw with nothing else changed. |
| `Properties.WinCreditedToPlayerToMove` | script.js:90-94 | Three O's in the top row while X is to move still end the game and add one to the disturbance level, because the win is credited to the player to move. |
| `Properties.SecondClickPlacesO` | script.js:44-49 | After X's first click O is to move and the game is active. A second click before the bot moves is taken, places O, and passes the turn back to X. |
| `Properties.LateRetractionCountsWinAgain` | script.js:141-148 | X wins with a click on cell 8 at level 5, reaching level 6. A retraction that fires afterwards re-evaluates the still-won board with X to move and raises the level to 7. |
| `Session.StepDisturbance` | script.js:93-94 | Any single event keeps the disturbance level or adds exactly one to it. It adds one only by evaluating a win with X to move: the board after the event has a won line and the game is over. |
| `Session.DisturbanceNeverDecreases` | script.js:93-94 | Over any session the level never decreases and grows by at most the number of events; reset does not lower it. |
| `Session.StepKeepsSettled` | script.js:40-161 | Clicks, normal bot moves, retractions and resets keep a settled state settled. |
| `Session.SettledThroughout` | script.js:40-161 | Start from a settled state and run a session without double placements. The final state is settled, and if the game is active the bot has a cell to choose. |
| `Session.StepKeepsMarks` | script.js:44-58 | A click or a normal bot move only writes an empty cell: every marked cell keeps its mark. |
| `Session.MarksNeverOverwritten` | script.js:44-58 | Over any session made only of clicks and normal bot moves, no marked cell is ever overwritten or cleared. |
| `Session.InitialSettled` | script.js:8-10 | The initial state is settled: the empty board has no win and is not full. |

## Left out

- DOM and presentation are not modelled. This covers cell classes (`x`, `o`, `corrupted`), the board and body classes, `innerHTML`, cursor styles and every status-message string (script.js:1-6, script.js:59-70, script.js:91-113, script.js:140, script.js:162-171). They have no bearing on the game state.
- Timers are not modelled as timers (script.js:53, script.js:69, script.js:141, script.js:189, script.js:201, script.js:230). A scheduled bot move or retraction is an explicit later step that the caller runs. The session model allows that step to come after any other event. Retractions in a session are not tied to a double placement that scheduled them: a session may retract any two cells, so sessions cover more than the page can do. The delays themselves, and when the event loop runs them, are not represented.
- Floating-point chances that affect the game state are replaced by parameters: the 30% cheat coin becomes a boolean, and the two random picks become indices below the number of available cells.
- The corruption draw `Math.random() < disturbanceLevel * 0.1` (script.js:61-64) only decides whether to add the `corrupted` class. It is left out with the rest of the DOM.
- Audio volume arithmetic and `Math.min` are not modelled.
- `applyDisturbanceEffects`, `triggerCrypticMessage` and `playAmbientSound` are not modelled (script.js:177-253). They only add CSS classes, messages, sounds and intervals, and never touch the game state. The same holds for the cryptic phrase list and the sound list.
- `parseInt` of the cell's data attribute is not modelled. The index is an integer parameter, so a non-numeric attribute (NaN) cannot be represented. The page would ignore it, as it ignores every index outside 0..8.
