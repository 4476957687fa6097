/** The engine as the page runs it: one object whose board is an array of
    nine cells updated in place, with the turn, the active flag and the
    disturbance level as fields.  Each method is proved to move the state
    exactly as the matching function of module Rules says. */
module Engine {
  import opened Rules

  class Game {
    var board: array<Cell>
    var current: Player
    var active: bool
    var disturbance: nat

    ghost predicate Valid()
      reads this
    {
      board.Length == 9
    }

    /** The state as a value. */
    ghost function State(): GameState
      reads this, board
      requires Valid()
    {
      GameState(board[..], current, active, disturbance)
    }

    /** The state at page load. */
    constructor ()
      ensures Valid() && fresh(board)
      ensures State() == Initial
    {
      board := new Cell[9](_ => Empty);
      current := X;
      active := true;
      disturbance := 0;
      new;
      assert board[..] == EmptyBoard;
    }

    /** placeMark, as far as the game state goes: one cell is written. */
    method PlaceMark(index: Index, player: Player)
      requires Valid()
      modifies board
      ensures board[..] == old(board[..])[index := Mark(player)]
    {
      board[index] := Mark(player);
    }

    /** The scan of checkResult over the eight combinations, stopping at the
        first one that is won. */
    method ScanForWin() returns (roundWon: bool)
      requires Valid()
      ensures roundWon <==> HasWin(board[..])
    {
      roundWon := false;
      for i := 0 to |WinningCombinations|
        invariant forall k :: 0 <= k < i ==> !LineWon(board[..], WinningCombinations[k])
      {
        var line := WinningCombinations[i];
        var a, b, c := board[line.a], board[line.b], board[line.c];
        if a == Empty || b == Empty || c == Empty {
          continue;
        }
        if a == b && b == c {
          assert LineWon(board[..], line);
          roundWon := true;
          break;
        }
      }
    }

    /** checkResult: declare a win or a draw, or pass the turn. */
    method CheckResult()
      requires Valid()
      modifies this
      ensures Valid() && board == old(board)
      ensures State() == AfterCheck(old(State()))
    {
      var roundWon := ScanForWin();
      if roundWon {
        active := false;
        if current == X {
          disturbance := disturbance + 1;
        }
        return;
      }
      var roundDraw := Empty !in board[..];
      if roundDraw {
        active := false;
        return;
      }
      if active {
        current := if current == X then O else X;
      }
    }

    /** handleCellClick on the cell with the given index.  botScheduled says
        whether the bot's move was scheduled. */
    method HandleCellClick(index: int) returns (botScheduled: bool)
      requires Valid()
      modifies this, board
      ensures Valid() && board == old(board)
      ensures State() == AfterClick(old(State()), index)
      ensures botScheduled <==> Accepts(old(State()), index) && active
    {
      botScheduled := false;
      if !(0 <= index < board.Length) || board[index] != Empty || !active {
        return;
      }
      PlaceMark(index, current);
      CheckResult();
      if active {
        botScheduled := true;
      }
    }

    /** The loop of botMove that collects the empty cells. */
    method AvailableCells() returns (cells: seq<Index>)
      requires Valid()
      ensures cells == EmptyIndices(board[..])
    {
      cells := [];
      for i := 0 to board.Length
        invariant cells == EmptyIndicesBelow(board[..], i)
      {
        if board[i] == Empty {
          cells := cells + [i];
        }
      }
    }

    /** botMove, with its random picks r1 and r2 and the cheat coin passed in.
        A double placement returns the retraction it schedules. */
    method BotMove(r1: nat, cheat: bool, r2: nat) returns (pending: Option<Retraction>)
      requires Valid()
      requires ValidPick(State(), r1) && ValidPick(State(), r2)
      modifies this, board
      ensures Valid() && board == old(board)
      ensures BotResult(State(), pending) == AfterBot(old(State()), r1, cheat, r2)
    {
      pending := None;
      if !active {
        return;
      }
      var availableCells := AvailableCells();
      if |availableCells| > 0 {
        var chosen := availableCells[r1];
        if disturbance >= 5 && cheat {
          var second := availableCells[r2];
          PlaceMark(chosen, O);
          PlaceMark(second, O);
          pending := Some(Retraction(chosen, second));
        } else {
          PlaceMark(chosen, O);
          CheckResult();
        }
      }
    }

    /** The delayed second half of the double placement. */
    method Retract(r: Retraction)
      requires Valid()
      modifies this, board
      ensures Valid() && board == old(board)
      ensures State() == AfterRetract(old(State()), r)
    {
      board[r.second] := Empty;
      board[r.chosen] := Mark(O);
      CheckResult();
    }

    /** resetGame: a new empty board, X to move, the game active; the
        disturbance level is kept. */
    method ResetGame()
      requires Valid()
      modifies this
      ensures Valid() && fresh(board)
      ensures State() == AfterReset(old(State()))
      ensures board[..] == EmptyBoard && current == X && active
      ensures disturbance == old(disturbance)
    {
      board := new Cell[9](_ => Empty);
      active := true;
      current := X;
      assert board[..] == EmptyBoard;
    }
  }
}
