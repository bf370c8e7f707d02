/**
 Concrete games played through the model from the screen's initial state.
 */
module Scenarios {
  import opened Rules
  import opened Game

  /** An accepted press whose new board `b` is still undecided passes the
      turn to the other player. */
  lemma PressContinues(s: State, row: Coord, col: Coord, b: Board, freeRow: Coord, freeCol: Coord)
    requires Accepted(s, row, col)
    requires forall i: Coord, j: Coord :: b[i][j] == (if i == row && j == col then Mark(s.current) else s.board[i][j])
    requires b[freeRow][freeCol] == Empty
    requires !ThreeInARow(b, X) && !ThreeInARow(b, O)
    ensures Press(s, row, col) == State(b, Other(s.current), Undecided)
  {
    OpenBoard(b, freeRow, freeCol);
    var t := Press(s, row, col);
    forall i: Coord, j: Coord
      ensures t.board[i][j] == b[i][j]
    {
      if i != row || j != col {
        assert t.board[i][j] == s.board[i][j];
      }
    }
    BoardExt(t.board, b);
    assert t.current != s.current;
  }

  /** An accepted press whose new board `b` is decided records the verdict
      and keeps the mover as current player. */
  lemma PressDecides(s: State, row: Coord, col: Coord, b: Board)
    requires Accepted(s, row, col)
    requires forall i: Coord, j: Coord :: b[i][j] == (if i == row && j == col then Mark(s.current) else s.board[i][j])
    requires CheckWinner(b) != Undecided
    ensures Press(s, row, col) == State(b, s.current, CheckWinner(b))
  {
    var t := Press(s, row, col);
    forall i: Coord, j: Coord
      ensures t.board[i][j] == b[i][j]
    {
      if i != row || j != col {
        assert t.board[i][j] == s.board[i][j];
      }
    }
    BoardExt(t.board, b);
  }

  /** A board with an empty cell and no three in a row is undecided. */
  lemma OpenBoard(b: Board, row: Coord, col: Coord)
    requires b[row][col] == Empty
    requires !ThreeInARow(b, X) && !ThreeInARow(b, O)
    ensures CheckWinner(b) == Undecided
  {
    CompletesIffThreeInARow(b, X);
    CompletesIffThreeInARow(b, O);
  }

  lemma RunTap(s: State, row: Coord, col: Coord, rest: seq<Command>)
    ensures Run(s, [Tap(row, col)] + rest) == Run(Press(s, row, col), rest)
  {
    assert ([Tap(row, col)] + rest)[1..] == rest;
  }

  // The top-row game: boards after each press, and the presses two at a time.
  const TopRow1: Board := [[Mark(X), Empty, Empty], [Empty, Empty, Empty], [Empty, Empty, Empty]]
  const TopRow2: Board := [[Mark(X), Empty, Empty], [Empty, Mark(O), Empty], [Empty, Empty, Empty]]
  const TopRow3: Board := [[Mark(X), Mark(X), Empty], [Empty, Mark(O), Empty], [Empty, Empty, Empty]]
  const TopRow4: Board := [[Mark(X), Mark(X), Empty], [Empty, Mark(O), Empty], [Empty, Empty, Mark(O)]]
  const TopRow5: Board := [[Mark(X), Mark(X), Mark(X)], [Empty, Mark(O), Empty], [Empty, Empty, Mark(O)]]

  lemma TopRowSteps1()
    ensures Press(Initial(), 0, 0) == State(TopRow1, O, Undecided)
    ensures Press(State(TopRow1, O, Undecided), 1, 1) == State(TopRow2, X, Undecided)
  {
    PressContinues(Initial(), 0, 0, TopRow1, 0, 1);
    PressContinues(State(TopRow1, O, Undecided), 1, 1, TopRow2, 0, 1);
  }

  lemma TopRowSteps3()
    ensures Press(State(TopRow2, X, Undecided), 0, 1) == State(TopRow3, O, Undecided)
    ensures Press(State(TopRow3, O, Undecided), 2, 2) == State(TopRow4, X, Undecided)
  {
    PressContinues(State(TopRow2, X, Undecided), 0, 1, TopRow3, 0, 2);
    PressContinues(State(TopRow3, O, Undecided), 2, 2, TopRow4, 0, 2);
  }

  lemma TopRowLast()
    ensures Press(State(TopRow4, X, Undecided), 0, 2) == State(TopRow5, X, Won(X))
  {
    CheckWinnerFirstLine(TopRow5, 0, X);
    PressDecides(State(TopRow4, X, Undecided), 0, 2, TopRow5);
  }

  /** X takes the top row on the fifth press; later presses are ignored. */
  lemma TopRowWin()
    ensures var s := Run(Initial(), [Tap(0, 0), Tap(1, 1), Tap(0, 1), Tap(2, 2), Tap(0, 2)]);
      && s.board[0] == [Mark(X), Mark(X), Mark(X)]
      && s.winner == Won(X)
      && s.current == X
      && Press(s, 2, 0) == s
  {
    TopRowSteps1();
    TopRowSteps3();
    TopRowLast();
    RunTap(Initial(), 0, 0, [Tap(1, 1), Tap(0, 1), Tap(2, 2), Tap(0, 2)]);
    RunTap(State(TopRow1, O, Undecided), 1, 1, [Tap(0, 1), Tap(2, 2), Tap(0, 2)]);
    RunTap(State(TopRow2, X, Undecided), 0, 1, [Tap(2, 2), Tap(0, 2)]);
    RunTap(State(TopRow3, O, Undecided), 2, 2, [Tap(0, 2)]);
    RunTap(State(TopRow4, X, Undecided), 0, 2, []);
  }

  // The drawn game: X and O alternate over the nine cells without a line.
  const Drawn1: Board := [[Mark(X), Empty, Empty], [Empty, Empty, Empty], [Empty, Empty, Empty]]
  const Drawn2: Board := [[Mark(X), Mark(O), Empty], [Empty, Empty, Empty], [Empty, Empty, Empty]]
  const Drawn3: Board := [[Mark(X), Mark(O), Mark(X)], [Empty, Empty, Empty], [Empty, Empty, Empty]]
  const Drawn4: Board := [[Mark(X), Mark(O), Mark(X)], [Empty, Mark(O), Empty], [Empty, Empty, Empty]]
  const Drawn5: Board := [[Mark(X), Mark(O), Mark(X)], [Mark(X), Mark(O), Empty], [Empty, Empty, Empty]]
  const Drawn6: Board := [[Mark(X), Mark(O), Mark(X)], [Mark(X), Mark(O), Mark(O)], [Empty, Empty, Empty]]
  const Drawn7: Board := [[Mark(X), Mark(O), Mark(X)], [Mark(X), Mark(O), Mark(O)], [Empty, Mark(X), Empty]]
  const Drawn8: Board := [[Mark(X), Mark(O), Mark(X)], [Mark(X), Mark(O), Mark(O)], [Mark(O), Mark(X), Empty]]
  const Drawn9: Board := [[Mark(X), Mark(O), Mark(X)], [Mark(X), Mark(O), Mark(O)], [Mark(O), Mark(X), Mark(X)]]

  lemma DrawnSteps1()
    ensures Press(Initial(), 0, 0) == State(Drawn1, O, Undecided)
    ensures Press(State(Drawn1, O, Undecided), 0, 1) == State(Drawn2, X, Undecided)
  {
    PressContinues(Initial(), 0, 0, Drawn1, 0, 1);
    PressContinues(State(Drawn1, O, Undecided), 0, 1, Drawn2, 0, 2);
  }

  lemma DrawnSteps3()
    ensures Press(State(Drawn2, X, Undecided), 0, 2) == State(Drawn3, O, Undecided)
    ensures Press(State(Drawn3, O, Undecided), 1, 1) == State(Drawn4, X, Undecided)
  {
    PressContinues(State(Drawn2, X, Undecided), 0, 2, Drawn3, 1, 0);
    PressContinues(State(Drawn3, O, Undecided), 1, 1, Drawn4, 1, 0);
  }

  lemma DrawnSteps5()
    ensures Press(State(Drawn4, X, Undecided), 1, 0) == State(Drawn5, O, Undecided)
    ensures Press(State(Drawn5, O, Undecided), 1, 2) == State(Drawn6, X, Undecided)
  {
    PressContinues(State(Drawn4, X, Undecided), 1, 0, Drawn5, 1, 2);
    PressContinues(State(Drawn5, O, Undecided), 1, 2, Drawn6, 2, 0);
  }

  lemma DrawnSteps7()
    ensures Press(State(Drawn6, X, Undecided), 2, 1) == State(Drawn7, O, Undecided)
    ensures Press(State(Drawn7, O, Undecided), 2, 0) == State(Drawn8, X, Undecided)
  {
    PressContinues(State(Drawn6, X, Undecided), 2, 1, Drawn7, 2, 0);
    PressContinues(State(Drawn7, O, Undecided), 2, 0, Drawn8, 2, 2);
  }

  lemma DrawnLast()
    ensures Press(State(Drawn8, X, Undecided), 2, 2) == State(Drawn9, X, Draw)
  {
    PressDecides(State(Drawn8, X, Undecided), 2, 2, Drawn9);
  }

  /** Nine alternating presses fill the board without a line: after the
      eighth press the game is still undecided with X to move, and the ninth
      press leaves the board X O X / X O O / O X X and records a draw. */
  lemma FullBoardDraw()
    ensures var s := Run(Initial(), [Tap(0, 0), Tap(0, 1), Tap(0, 2), Tap(1, 1), Tap(1, 0), Tap(1, 2), Tap(2, 1), Tap(2, 0), Tap(2, 2)]);
      && s.board == [[Mark(X), Mark(O), Mark(X)], [Mark(X), Mark(O), Mark(O)], [Mark(O), Mark(X), Mark(X)]]
      && s.winner == Draw
    ensures Run(Initial(), [Tap(0, 0), Tap(0, 1), Tap(0, 2), Tap(1, 1), Tap(1, 0), Tap(1, 2), Tap(2, 1), Tap(2, 0)]) == State(Drawn8, X, Undecided)
  {
    DrawnSteps1();
    DrawnSteps3();
    DrawnSteps5();
    DrawnSteps7();
    DrawnLast();
    RunTap(Initial(), 0, 0, [Tap(0, 1), Tap(0, 2), Tap(1, 1), Tap(1, 0), Tap(1, 2), Tap(2, 1), Tap(2, 0), Tap(2, 2)]);
    RunTap(State(Drawn1, O, Undecided), 0, 1, [Tap(0, 2), Tap(1, 1), Tap(1, 0), Tap(1, 2), Tap(2, 1), Tap(2, 0), Tap(2, 2)]);
    RunTap(State(Drawn2, X, Undecided), 0, 2, [Tap(1, 1), Tap(1, 0), Tap(1, 2), Tap(2, 1), Tap(2, 0), Tap(2, 2)]);
    RunTap(State(Drawn3, O, Undecided), 1, 1, [Tap(1, 0), Tap(1, 2), Tap(2, 1), Tap(2, 0), Tap(2, 2)]);
    RunTap(State(Drawn4, X, Undecided), 1, 0, [Tap(1, 2), Tap(2, 1), Tap(2, 0), Tap(2, 2)]);
    RunTap(State(Drawn5, O, Undecided), 1, 2, [Tap(2, 1), Tap(2, 0), Tap(2, 2)]);
    RunTap(State(Drawn6, X, Undecided), 2, 1, [Tap(2, 0), Tap(2, 2)]);
    RunTap(State(Drawn7, O, Undecided), 2, 0, [Tap(2, 2)]);
    RunTap(State(Drawn8, X, Undecided), 2, 2, []);
    RunTap(Initial(), 0, 0, [Tap(0, 1), Tap(0, 2), Tap(1, 1), Tap(1, 0), Tap(1, 2), Tap(2, 1), Tap(2, 0)]);
    RunTap(State(Drawn1, O, Undecided), 0, 1, [Tap(0, 2), Tap(1, 1), Tap(1, 0), Tap(1, 2), Tap(2, 1), Tap(2, 0)]);
    RunTap(State(Drawn2, X, Undecided), 0, 2, [Tap(1, 1), Tap(1, 0), Tap(1, 2), Tap(2, 1), Tap(2, 0)]);
    RunTap(State(Drawn3, O, Undecided), 1, 1, [Tap(1, 0), Tap(1, 2), Tap(2, 1), Tap(2, 0)]);
    RunTap(State(Drawn4, X, Undecided), 1, 0, [Tap(1, 2), Tap(2, 1), Tap(2, 0)]);
    RunTap(State(Drawn5, O, Undecided), 1, 2, [Tap(2, 1), Tap(2, 0)]);
    RunTap(State(Drawn6, X, Undecided), 2, 1, [Tap(2, 0)]);
    RunTap(State(Drawn7, O, Undecided), 2, 0, []);
  }

  // The middle-row game: X starts and O completes the middle row.
  const MiddleRow1: Board := [[Mark(X), Empty, Empty], [Empty, Empty, Empty], [Empty, Empty, Empty]]
  const MiddleRow2: Board := [[Mark(X), Empty, Empty], [Mark(O), Empty, Empty], [Empty, Empty, Empty]]
  const MiddleRow3: Board := [[Mark(X), Mark(X), Empty], [Mark(O), Empty, Empty], [Empty, Empty, Empty]]
  const MiddleRow4: Board := [[Mark(X), Mark(X), Empty], [Mark(O), Mark(O), Empty], [Empty, Empty, Empty]]
  const MiddleRow5: Board := [[Mark(X), Mark(X), Empty], [Mark(O), Mark(O), Empty], [Empty, Empty, Mark(X)]]
  const MiddleRow6: Board := [[Mark(X), Mark(X), Empty], [Mark(O), Mark(O), Mark(O)], [Empty, Empty, Mark(X)]]

  lemma MiddleRowSteps1()
    ensures Press(Initial(), 0, 0) == State(MiddleRow1, O, Undecided)
    ensures Press(State(MiddleRow1, O, Undecided), 1, 0) == State(MiddleRow2, X, Undecided)
  {
    PressContinues(Initial(), 0, 0, MiddleRow1, 0, 1);
    PressContinues(State(MiddleRow1, O, Undecided), 1, 0, MiddleRow2, 0, 1);
  }

  lemma MiddleRowSteps3()
    ensures Press(State(MiddleRow2, X, Undecided), 0, 1) == State(MiddleRow3, O, Undecided)
    ensures Press(State(MiddleRow3, O, Undecided), 1, 1) == State(MiddleRow4, X, Undecided)
  {
    PressContinues(State(MiddleRow2, X, Undecided), 0, 1, MiddleRow3, 0, 2);
    PressContinues(State(MiddleRow3, O, Undecided), 1, 1, MiddleRow4, 0, 2);
  }

  lemma MiddleRowSteps5()
    ensures Press(State(MiddleRow4, X, Undecided), 2, 2) == State(MiddleRow5, O, Undecided)
  {
    PressContinues(State(MiddleRow4, X, Undecided), 2, 2, MiddleRow5, 0, 2);
  }

  lemma MiddleRowLast()
    ensures Press(State(MiddleRow5, O, Undecided), 1, 2) == State(MiddleRow6, O, Won(O))
  {
    CheckWinnerFirstLine(MiddleRow6, 1, O);
    PressDecides(State(MiddleRow5, O, Undecided), 1, 2, MiddleRow6);
  }

  /** X starts, O completes the middle row with the sixth press, and the
      confirmed restart gives the first move of the next game to X again:
      the restart flips the player who moved last, not the previous game's
      starter. */
  lemma SecondPlayerWinKeepsStarter()
    ensures var s := Run(Initial(), [Tap(0, 0), Tap(1, 0), Tap(0, 1), Tap(1, 1), Tap(2, 2), Tap(1, 2)]);
      && s.winner == Won(O)
      && Restart(s).current == X
      && Restart(s).current == Initial().current
  {
    MiddleRowSteps1();
    MiddleRowSteps3();
    MiddleRowSteps5();
    MiddleRowLast();
    RunTap(Initial(), 0, 0, [Tap(1, 0), Tap(0, 1), Tap(1, 1), Tap(2, 2), Tap(1, 2)]);
    RunTap(State(MiddleRow1, O, Undecided), 1, 0, [Tap(0, 1), Tap(1, 1), Tap(2, 2), Tap(1, 2)]);
    RunTap(State(MiddleRow2, X, Undecided), 0, 1, [Tap(1, 1), Tap(2, 2), Tap(1, 2)]);
    RunTap(State(MiddleRow3, O, Undecided), 1, 1, [Tap(2, 2), Tap(1, 2)]);
    RunTap(State(MiddleRow4, X, Undecided), 2, 2, [Tap(1, 2)]);
    RunTap(State(MiddleRow5, O, Undecided), 1, 2, []);
  }
}
