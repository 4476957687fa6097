/** The rules of the tic-tac-toe engine, as values.

    Every operation of the engine is given here as a function from the game
    state before it to the game state after it.  The class in module Engine
    updates an array and fields in place and is proved to follow these
    functions; the lemmas in modules Properties and Session are about them.
 */
module Rules {

  datatype Option<T> = None | Some(value: T)

  /** The two marks; X is the human, O is the bot. */
  datatype Player = X | O

  /** A cell of the board: '' or a player's mark. */
  datatype Cell = Empty | Mark(player: Player)

  /** A cell index; the page has exactly nine cells. */
  type Index = i: nat | i < 9

  /** The board: nine cells, row by row. */
  type Board = b: seq<Cell> | |b| == 9
    witness [Empty, Empty, Empty, Empty, Empty, Empty, Empty, Empty, Empty]

  const EmptyBoard: Board := [Empty, Empty, Empty, Empty, Empty, Empty, Empty, Empty, Empty]

  /** One winning combination: three cell indices. */
  datatype Line = Line(a: Index, b: Index, c: Index)

  /** The eight combinations, in the order in which they are scanned. */
  const WinningCombinations: seq<Line> := [
    Line(0, 1, 2), Line(3, 4, 5), Line(6, 7, 8),  // rows
    Line(0, 3, 6), Line(1, 4, 7), Line(2, 5, 8),  // columns
    Line(0, 4, 8), Line(2, 4, 6)                  // diagonals
  ]

  /** A combination is won when none of its three cells is empty and all
      three hold the same mark. */
  predicate LineWon(b: Board, l: Line) {
    b[l.a] != Empty && b[l.b] != Empty && b[l.c] != Empty
    && b[l.a] == b[l.b] && b[l.b] == b[l.c]
  }

  /** Some winning combination is won. */
  predicate HasWin(b: Board) {
    exists k :: 0 <= k < |WinningCombinations| && LineWon(b, WinningCombinations[k])
  }

  /** No cell is empty. */
  predicate IsFull(b: Board) {
    Empty !in b
  }

  /** The engine's module-level state. */
  datatype GameState = GameState(board: Board, current: Player, active: bool, disturbance: nat)

  /** The state when the page is loaded. */
  const Initial: GameState := GameState(EmptyBoard, X, true, 0)

  function Other(p: Player): Player {
    if p == X then O else X
  }

  /** Writes one cell and nothing else. */
  function Place(s: GameState, i: Index, p: Player): GameState {
    s.(board := s.board[i := Mark(p)])
  }

  /** Result evaluation.  A win stops the game and is credited to the player
      whose turn it is, whatever mark the line holds; a win while X is to move
      raises the disturbance level by one.  Without a win, a full board is a
      draw.  Otherwise the turn passes, if the game is still active. */
  function AfterCheck(s: GameState): GameState {
    if HasWin(s.board) then
      s.(active := false,
         disturbance := if s.current == X then s.disturbance + 1 else s.disturbance)
    else if IsFull(s.board) then
      s.(active := false)
    else if s.active then
      s.(current := Other(s.current))
    else
      s
  }

  /** A click is taken when it names one of the nine cells, that cell is
      empty and the game is active.  Any other index reads as no cell and is
      ignored like an occupied one. */
  predicate Accepts(s: GameState, index: int) {
    0 <= index < 9 && s.board[index] == Empty && s.active
  }

  /** A click on a cell: the mark placed is that of the player to move,
      which need not be X. */
  function AfterClick(s: GameState, index: int): GameState {
    if Accepts(s, index) then AfterCheck(Place(s, index, s.current)) else s
  }

  /** The indices among 0 .. n-1 whose cell is empty, in ascending order. */
  function EmptyIndicesBelow(b: Board, n: nat): seq<Index>
    requires n <= 9
  {
    if n == 0 then []
    else EmptyIndicesBelow(b, n - 1) + (if b[n - 1] == Empty then [n - 1] else [])
  }

  /** The cells the bot may choose from. */
  function EmptyIndices(b: Board): seq<Index> {
    EmptyIndicesBelow(b, 9)
  }

  /** A random pick that can stand for floor(random * length) over the
      available cells: below their number whenever there is one. */
  predicate ValidPick(s: GameState, r: nat) {
    |EmptyIndices(s.board)| == 0 || r < |EmptyIndices(s.board)|
  }

  /** The pending second step of the bot's double placement: clear the
      second cell, set the chosen one again. */
  datatype Retraction = Retraction(chosen: Index, second: Index)

  /** The state after the bot's move and the retraction it has scheduled,
      if any. */
  datatype BotResult = BotResult(state: GameState, pending: Option<Retraction>)

  /** The bot's move.  r1 and r2 are the two random picks among the empty
      cells and cheat is the outcome of the 30% coin, which only matters from
      disturbance level 5 on.  The double placement is not evaluated until
      the retraction runs. */
  function AfterBot(s: GameState, r1: nat, cheat: bool, r2: nat): BotResult
    requires ValidPick(s, r1) && ValidPick(s, r2)
  {
    var available := EmptyIndices(s.board);
    if !s.active || |available| == 0 then
      BotResult(s, None)
    else if s.disturbance >= 5 && cheat then
      BotResult(Place(Place(s, available[r1], O), available[r2], O),
                Some(Retraction(available[r1], available[r2])))
    else
      BotResult(AfterCheck(Place(s, available[r1], O)), None)
  }

  /** The retraction step; it runs whatever the state is by then. */
  function AfterRetract(s: GameState, r: Retraction): GameState {
    AfterCheck(s.(board := s.board[r.second := Empty][r.chosen := Mark(O)]))
  }

  /** Reset: board, turn and active flag start over; the disturbance level
      stays. */
  function AfterReset(s: GameState): GameState {
    GameState(EmptyBoard, X, true, s.disturbance)
  }
}
