/** What the rules promise, operation by operation. */
module Properties {
  import opened Rules

  /** The board positions of a 3 by 3 grid, row by row. */
  function Row(r: nat): Line
    requires r < 3
  {
    Line(3 * r, 3 * r + 1, 3 * r + 2)
  }

  function Column(c: nat): Line
    requires c < 3
  {
    Line(c, c + 3, c + 6)
  }

  /** Three in a row on the grid, stated without the table: a row, a column
      or one of the two diagonals holds three equal marks. */
  predicate ThreeInARow(b: Board) {
    || (exists r :: 0 <= r < 3 && LineWon(b, Row(r)))
    || (exists c :: 0 <= c < 3 && LineWon(b, Column(c)))
    || LineWon(b, Line(0, 4, 8))
    || LineWon(b, Line(2, 4, 6))
  }

  /** The table of winning combinations, spelled out. */
  lemma HasWinUnfolded(b: Board)
    ensures HasWin(b) <==>
      || LineWon(b, Line(0, 1, 2)) || LineWon(b, Line(3, 4, 5)) || LineWon(b, Line(6, 7, 8))
      || LineWon(b, Line(0, 3, 6)) || LineWon(b, Line(1, 4, 7)) || LineWon(b, Line(2, 5, 8))
      || LineWon(b, Line(0, 4, 8)) || LineWon(b, Line(2, 4, 6))
  {
    if HasWin(b) {
      var k :| 0 <= k < |WinningCombinations| && LineWon(b, WinningCombinations[k]);
      assert k in {0, 1, 2, 3, 4, 5, 6, 7};
    }
    if LineWon(b, Line(0, 1, 2)) { assert LineWon(b, WinningCombinations[0]); }
    if LineWon(b, Line(3, 4, 5)) { assert LineWon(b, WinningCombinations[1]); }
    if LineWon(b, Line(6, 7, 8)) { assert LineWon(b, WinningCombinations[2]); }
    if LineWon(b, Line(0, 3, 6)) { assert LineWon(b, WinningCombinations[3]); }
    if LineWon(b, Line(1, 4, 7)) { assert LineWon(b, WinningCombinations[4]); }
    if LineWon(b, Line(2, 5, 8)) { assert LineWon(b, WinningCombinations[5]); }
    if LineWon(b, Line(0, 4, 8)) { assert LineWon(b, WinningCombinations[6]); }
    if LineWon(b, Line(2, 4, 6)) { assert LineWon(b, WinningCombinations[7]); }
  }

  /** The eight combinations are exactly the three rows, the three columns
      and the two diagonals. */
  lemma WinningCombinationsAreTheLines(b: Board)
    ensures HasWin(b) <==> ThreeInARow(b)
  {
    HasWinUnfolded(b);
    assert Row(0) == Line(0, 1, 2) && Row(1) == Line(3, 4, 5) && Row(2) == Line(6, 7, 8);
    assert Column(0) == Line(0, 3, 6) && Column(1) == Line(1, 4, 7) && Column(2) == Line(2, 5, 8);
    if exists r :: 0 <= r < 3 && LineWon(b, Row(r)) {
      var r :| 0 <= r < 3 && LineWon(b, Row(r));
      assert r in {0, 1, 2};
    }
    if exists c :: 0 <= c < 3 && LineWon(b, Column(c)) {
      var c :| 0 <= c < 3 && LineWon(b, Column(c));
      assert c in {0, 1, 2};
    }
  }

  /** The available cells below n: exactly the empty ones, strictly
      ascending, as many as there are empty cells. */
  lemma {:induction false} EmptyIndicesBelowSpec(b: Board, n: nat)
    requires n <= 9
    ensures forall i: Index :: i in EmptyIndicesBelow(b, n) <==> i < n && b[i] == Empty
    ensures forall j, k :: 0 <= j < k < |EmptyIndicesBelow(b, n)| ==>
              EmptyIndicesBelow(b, n)[j] < EmptyIndicesBelow(b, n)[k]
    ensures |EmptyIndicesBelow(b, n)| == multiset(b[..n])[Empty]
  {
    if n > 0 {
      EmptyIndicesBelowSpec(b, n - 1);
      var below := EmptyIndicesBelow(b, n - 1);
      forall j | 0 <= j < |below| ensures below[j] < n - 1 {
        assert below[j] in below;
      }
      assert b[..n] == b[..n - 1] + [b[n - 1]];
    }
  }

  /** availableCells holds every empty cell, in ascending order, and
      nothing else. */
  lemma EmptyIndicesSpec(b: Board)
    ensures forall i: Index :: i in EmptyIndices(b) <==> b[i] == Empty
    ensures forall j, k :: 0 <= j < k < |EmptyIndices(b)| ==> EmptyIndices(b)[j] < EmptyIndices(b)[k]
    ensures |EmptyIndices(b)| == multiset(b)[Empty]
  {
    EmptyIndicesBelowSpec(b, 9);
    assert b[..9] == b;
  }

  /** Result evaluation never touches the board and ends in one of four
      ways: a win, a draw, the game going on with the turn passed, or, when
      there is neither a win nor a draw in a game already over, no change. */
  lemma CheckOutcomes(s: GameState)
    ensures AfterCheck(s).board == s.board
    ensures HasWin(s.board) ==>
              && !AfterCheck(s).active
              && AfterCheck(s).current == s.current
              && AfterCheck(s).disturbance == s.disturbance + (if s.current == X then 1 else 0)
    ensures !HasWin(s.board) && IsFull(s.board) ==>
              AfterCheck(s) == s.(active := false)
    ensures !HasWin(s.board) && !IsFull(s.board) && s.active ==>
              AfterCheck(s) == s.(current := Other(s.current))
    ensures !HasWin(s.board) && !IsFull(s.board) && !s.active ==>
              AfterCheck(s) == s
    ensures AfterCheck(s).disturbance >= s.disturbance
  {
  }

  /** A state between turns: an active game has no won line and an empty
      cell. */
  predicate Settled(s: GameState) {
    s.active ==> !HasWin(s.board) && !IsFull(s.board)
  }

  /** Evaluation always leaves a settled state, whatever it started from. */
  lemma CheckSettles(s: GameState)
    ensures Settled(AfterCheck(s))
  {
  }

  /** In a settled active game the bot always has a cell to choose. */
  lemma SettledGameHasMove(s: GameState)
    requires Settled(s) && s.active
    ensures |EmptyIndices(s.board)| > 0
  {
    EmptyIndicesSpec(s.board);
    var i :| 0 <= i < 9 && s.board[i] == Empty;
    assert i in EmptyIndices(s.board);
  }

  /** A click that is not taken changes nothing; one that is taken writes
      exactly the clicked cell with the mark of the player to move, so no
      marked cell is overwritten and one empty cell fewer remains. */
  lemma ClickEffect(s: GameState, index: int)
    ensures !Accepts(s, index) ==> AfterClick(s, index) == s
    ensures Accepts(s, index) ==>
              && AfterClick(s, index).board == s.board[index := Mark(s.current)]
              && multiset(AfterClick(s, index).board)[Empty] == multiset(s.board)[Empty] - 1
    ensures forall i | 0 <= i < 9 && s.board[i] != Empty :: AfterClick(s, index).board[i] == s.board[i]
    ensures Settled(s) ==> Settled(AfterClick(s, index))
  {
  }

  /** The bot ignores an inactive game. */
  lemma BotIgnoresInactiveGame(s: GameState, r1: nat, cheat: bool, r2: nat)
    requires ValidPick(s, r1) && ValidPick(s, r2)
    requires !s.active
    ensures AfterBot(s, r1, cheat, r2) == BotResult(s, None)
  {
  }

  /** The bot's normal move: the chosen cell was empty, it now holds O,
      every other cell is as it was, so there is exactly one more O. */
  lemma BotNormalMove(s: GameState, r1: nat, cheat: bool, r2: nat)
    requires ValidPick(s, r1) && ValidPick(s, r2)
    requires s.active && |EmptyIndices(s.board)| > 0
    requires !(s.disturbance >= 5 && cheat)
    ensures var chosen := EmptyIndices(s.board)[r1];
      && s.board[chosen] == Empty
      && AfterBot(s, r1, cheat, r2) == BotResult(AfterCheck(Place(s, chosen, O)), None)
      && AfterBot(s, r1, cheat, r2).state.board == s.board[chosen := Mark(O)]
      && multiset(AfterBot(s, r1, cheat, r2).state.board)[Mark(O)] == multiset(s.board)[Mark(O)] + 1
      && multiset(AfterBot(s, r1, cheat, r2).state.board)[Mark(X)] == multiset(s.board)[Mark(X)]
  {
    EmptyIndicesSpec(s.board);
    assert EmptyIndices(s.board)[r1] in EmptyIndices(s.board);
  }

  /** The double placement: both picks are empty cells, the bot reports a
      pending retraction, and once it has run the state is exactly the one a
      normal move on the first pick gives.  This holds when both picks are
      the same cell too. */
  lemma DoublePlacementIsNormalMove(s: GameState, r1: nat, r2: nat)
    requires ValidPick(s, r1) && ValidPick(s, r2)
    requires s.active && |EmptyIndices(s.board)| > 0 && s.disturbance >= 5
    ensures var available := EmptyIndices(s.board);
      var res := AfterBot(s, r1, true, r2);
      && s.board[available[r1]] == Empty && s.board[available[r2]] == Empty
      && res.pending == Some(Retraction(available[r1], available[r2]))
      && AfterRetract(res.state, res.pending.value) == AfterBot(s, r1, false, r2).state
      && AfterRetract(res.state, res.pending.value).board == s.board[available[r1] := Mark(O)]
  {
    var available := EmptyIndices(s.board);
    EmptyIndicesSpec(s.board);
    assert available[r1] in available && available[r2] in available;
    var chosen, second := available[r1], available[r2];
    var placed := s.board[chosen := Mark(O)][second := Mark(O)];
    assert placed[second := Empty][chosen := Mark(O)] == s.board[chosen := Mark(O)];
  }

  /** Reset leaves a settled game in which every cell accepts a click, and
      keeps the disturbance level. */
  lemma ResetRestartsGame(s: GameState, index: Index)
    ensures AfterReset(s) == Initial.(disturbance := s.disturbance)
    ensures Settled(AfterReset(s))
    ensures Accepts(AfterReset(s), index)
  {
  }

  // Scenarios.

  /** X opens in the centre: no win, the turn passes to O, the bot is due. */
  lemma CentreOpening()
    ensures AfterClick(Initial, 4) == GameState(EmptyBoard[4 := Mark(X)], O, true, 0)
  {
    HasWinUnfolded(EmptyBoard[4 := Mark(X)]);
  }

  /** X completes the top row on its own move: X wins and the disturbance
      level rises by one. */
  lemma TopRowWinByX(s: GameState)
    requires s.board == [Mark(X), Mark(X), Mark(X), Empty, Empty, Empty, Empty, Empty, Empty]
    requires s.current == X
    ensures AfterCheck(s) == s.(active := false, disturbance := s.disturbance + 1)
  {
    assert LineWon(s.board, WinningCombinations[0]);
  }

  /** A full board without three in a row is a draw. */
  lemma FullBoardDraw(s: GameState)
    requires s.board == [Mark(X), Mark(O), Mark(X),
                         Mark(X), Mark(O), Mark(O),
                         Mark(O), Mark(X), Mark(X)]
    ensures AfterCheck(s) == s.(active := false)
  {
  }

  /** The win is credited to the player to move, not read from the line:
      three O's while X is to move still raise the disturbance level. */
  lemma WinCreditedToPlayerToMove(s: GameState)
    requires s.board[0] == s.board[1] == s.board[2] == Mark(O)
    requires s.current == X
    ensures !AfterCheck(s).active && AfterCheck(s).current == X
    ensures AfterCheck(s).disturbance == s.disturbance + 1
  {
    assert LineWon(s.board, WinningCombinations[0]);
  }

  /** A second click before the bot has moved is taken, and it places O, the
      mark of the player to move; the turn then passes back to X. */
  lemma SecondClickPlacesO()
    ensures AfterClick(Initial, 0).current == O && AfterClick(Initial, 0).active
    ensures AfterClick(AfterClick(Initial, 0), 3).board ==
              EmptyBoard[0 := Mark(X)][3 := Mark(O)]
    ensures AfterClick(AfterClick(Initial, 0), 3).current == X
  {
    HasWinUnfolded(EmptyBoard[0 := Mark(X)]);
    HasWinUnfolded(EmptyBoard[0 := Mark(X)][3 := Mark(O)]);
  }

  /** A retraction that fires after X has won still evaluates the board: the
      won line is still there and X is still to move, so the same win raises
      the disturbance level a second time. */
  lemma LateRetractionCountsWinAgain()
    ensures var won := AfterClick(GameState([Mark(X), Mark(O), Mark(O),
                                             Mark(O), Mark(X), Mark(O),
                                             Empty, Empty, Empty], X, true, 5), 8);
      && won == GameState([Mark(X), Mark(O), Mark(O),
                           Mark(O), Mark(X), Mark(O),
                           Empty, Empty, Mark(X)], X, false, 6)
      && AfterRetract(won, Retraction(1, 2)).disturbance == 7
  {
    assert LineWon([Mark(X), Mark(O), Mark(O), Mark(O), Mark(X), Mark(O), Empty, Empty, Mark(X)],
                   WinningCombinations[6]);
    assert LineWon([Mark(X), Mark(O), Empty, Mark(O), Mark(X), Mark(O), Empty, Empty, Mark(X)],
                   WinningCombinations[6]);
  }
}
