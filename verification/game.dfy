/**
 The game screen's engine: the state triple it keeps (`board`,
 `currentPlayer`, `winner`), the cell-press handler and the confirmed
 restart, each modelled as one atomic step on the state read at call time.
 */
module Game {
  import opened Rules

  /** `winner == Undecided` stands for the source's `null`. */
  datatype State = State(board: Board, current: Player, winner: Verdict)

  /** The state the screen starts with: an empty board, X to move, no result.
      Every cell accepts the first press, and no mark has been placed. */
  function Initial(): (s: State)
    ensures s.current == X && s.winner == Undecided
    ensures forall i: Coord, j: Coord :: s.board[i][j] == Empty && Accepted(s, i, j)
  {
    State(EmptyBoard(), X, Undecided)
  }

  /** The guard of the press handler: the cell is free and the game is not
      over. */
  predicate Accepted(s: State, row: Coord, col: Coord) {
    s.board[row][col] == Empty && s.winner == Undecided
  }

  /** `handleCellPress(row, col)`. A rejected press changes nothing. An
      accepted one writes the mover's mark into exactly that cell, records the
      evaluation of the new board as the result, and hands the turn over
      exactly when that evaluation is undecided. */
  function Press(s: State, row: Coord, col: Coord): (t: State)
    ensures !Accepted(s, row, col) ==> t == s
    ensures Accepted(s, row, col) ==>
      && t.board[row][col] == Mark(s.current)
      && (forall i: Coord, j: Coord :: (i != row || j != col) ==> t.board[i][j] == s.board[i][j])
      && t.winner == CheckWinner(t.board)
      && (t.current != s.current <==> t.winner == Undecided)
  {
    if s.board[row][col] != Empty || s.winner != Undecided then s
    else
      var board := Place(s.board, row, col, Mark(s.current));
      var result := CheckWinner(board);
      if result != Undecided then State(board, s.current, result)
      else State(board, Other(s.current), s.winner)
  }

  /** `confirmRestart`: a fresh empty board with no result, and the player
      flipped relative to whoever is current at confirm time. */
  function Restart(s: State): (t: State)
    ensures forall i: Coord, j: Coord :: t.board[i][j] == Empty
    ensures t.winner == Undecided
    ensures t.current != s.current
  {
    State(EmptyBoard(), Other(s.current), Undecided)
  }

  /** A press changes the board exactly when it is accepted. */
  lemma PressChangesBoardIffAccepted(s: State, row: Coord, col: Coord)
    ensures Press(s, row, col).board != s.board <==> Accepted(s, row, col)
  {
    if Accepted(s, row, col) {
      assert Press(s, row, col).board[row][col] != s.board[row][col];
    }
  }

  /** An accepted press adds one mark of the mover, leaves the other player's
      marks alone, and uses up one empty cell. */
  lemma PressCounts(s: State, row: Coord, col: Coord)
    requires Accepted(s, row, col)
    ensures Marks(Press(s, row, col).board, s.current) == Marks(s.board, s.current) + 1
    ensures Marks(Press(s, row, col).board, Other(s.current)) == Marks(s.board, Other(s.current))
    ensures Empties(Press(s, row, col).board) + 1 == Empties(s.board)
  {
    PlaceCounts(s.board, row, col, s.current);
  }

  // ---------------------------------------------------------------------
  // Runs of user commands

  /** What the user can do on the screen: press a cell, or confirm a restart
      (from the end-of-game popup or from the restart popup mid-game). */
  datatype Command = Tap(row: Coord, col: Coord) | ConfirmRestart

  function Step(s: State, c: Command): State {
    match c
    case Tap(row, col) => Press(s, row, col)
    case ConfirmRestart => Restart(s)
  }

  /** The state after handling `cmds` one at a time, in order. */
  function Run(s: State, cmds: seq<Command>): State
    decreases |cmds|
  {
    if |cmds| == 0 then s else Run(Step(s, cmds[0]), cmds[1..])
  }

  predicate AllTaps(cmds: seq<Command>) {
    forall k :: 0 <= k < |cmds| ==> cmds[k].Tap?
  }

  /** How many of the commands in `cmds` are presses the handler accepts. */
  function AcceptedTaps(s: State, cmds: seq<Command>): nat
    decreases |cmds|
  {
    if |cmds| == 0 then 0
    else
      var n := match cmds[0]
        case Tap(row, col) => if Accepted(s, row, col) then 1 else 0
        case ConfirmRestart => 0;
      n + AcceptedTaps(Step(s, cmds[0]), cmds[1..])
  }

  // ---------------------------------------------------------------------
  // Lockout and the per-game press budget

  /** Once a result is recorded, no sequence of presses changes anything. */
  lemma {:induction false} TerminalLockout(s: State, cmds: seq<Command>)
    requires s.winner != Undecided
    requires AllTaps(cmds)
    ensures Run(s, cmds) == s
    decreases |cmds|
  {
    if |cmds| > 0 {
      assert Step(s, cmds[0]) == s;
      TerminalLockout(s, cmds[1..]);
    }
  }

  /** Within one game, every accepted press uses up exactly one empty cell:
      accepted presses plus the empty cells left equal the empty cells at the
      start. */
  lemma {:induction false} AcceptedTapsUseEmptyCells(s: State, cmds: seq<Command>)
    requires AllTaps(cmds)
    ensures AcceptedTaps(s, cmds) + Empties(Run(s, cmds).board) == Empties(s.board)
    decreases |cmds|
  {
    if |cmds| > 0 {
      var row, col := cmds[0].row, cmds[0].col;
      var t := Press(s, row, col);
      assert Step(s, cmds[0]) == t;
      assert AllTaps(cmds[1..]) by {
        forall k | 0 <= k < |cmds[1..]| ensures cmds[1..][k].Tap? {
          assert cmds[1..][k] == cmds[k + 1];
        }
      }
      AcceptedTapsUseEmptyCells(t, cmds[1..]);
      assert Run(s, cmds) == Run(t, cmds[1..]);
      if Accepted(s, row, col) {
        PressCounts(s, row, col);
        assert AcceptedTaps(s, cmds) == 1 + AcceptedTaps(t, cmds[1..]);
      } else {
        assert t == s;
        assert AcceptedTaps(s, cmds) == AcceptedTaps(t, cmds[1..]);
      }
    }
  }

  /** No game accepts more than nine presses. */
  lemma AtMostNinePresses(s: State, cmds: seq<Command>)
    requires AllTaps(cmds)
    ensures AcceptedTaps(s, cmds) <= 9
  {
    AcceptedTapsUseEmptyCells(s, cmds);
    CellTotal(s.board);
  }

  // ---------------------------------------------------------------------
  // The invariant of every reachable state

  /** What holds after every handled command:
      - the stored result is the evaluation of the board on screen, so a
        result is never recorded late and never without cause;
      - a winner is the current player (the toggle is skipped on a result)
        and the other player owns no line;
      - while undecided, the player to move has no more marks than the
        other and at most one fewer; once decided, the current player made
        the last move, so has at least as many marks and at most one more. */
  predicate Consistent(s: State) {
    var mine, theirs := Marks(s.board, s.current), Marks(s.board, Other(s.current));
    && s.winner == CheckWinner(s.board)
    && (s.winner.Won? ==> s.winner.player == s.current && !Completes(s.board, Other(s.current)))
    && (s.winner == Undecided ==> mine <= theirs <= mine + 1)
    && (s.winner != Undecided ==> theirs <= mine <= theirs + 1)
  }

  lemma InitialConsistent()
    ensures Consistent(Initial())
  {
    BlankCounts(EmptyBoard());
    CheckWinnerEmptyBoard();
  }

  lemma PressConsistent(s: State, row: Coord, col: Coord)
    requires Consistent(s)
    ensures Consistent(Press(s, row, col))
  {
    if Accepted(s, row, col) {
      var t := Press(s, row, col);
      PressCounts(s, row, col);
      PlaceKeepsOtherLines(s.board, row, col, s.current);
      if t.winner.Won? {
        assert t.winner.player == s.current;
      }
    }
  }

  lemma RestartConsistent(s: State)
    ensures Consistent(Restart(s))
  {
    BlankCounts(EmptyBoard());
    CheckWinnerEmptyBoard();
  }

  /** Every state reached from a consistent one is consistent. */
  lemma {:induction false} RunConsistent(s: State, cmds: seq<Command>)
    requires Consistent(s)
    ensures Consistent(Run(s, cmds))
    decreases |cmds|
  {
    if |cmds| > 0 {
      match cmds[0] {
        case Tap(row, col) => PressConsistent(s, row, col);
        case ConfirmRestart => RestartConsistent(s);
      }
      RunConsistent(Step(s, cmds[0]), cmds[1..]);
    }
  }

  /** In every state the screen can reach, the mark counts of the two players
      differ by at most one, the player to move has no more marks than the
      other, and at most nine cells are filled. */
  lemma ReachableBalanced(cmds: seq<Command>)
    ensures var s := Run(Initial(), cmds);
      && -1 <= Marks(s.board, X) - Marks(s.board, O) <= 1
      && (s.winner == Undecided ==> Marks(s.board, s.current) <= Marks(s.board, Other(s.current)))
      && Marks(s.board, X) + Marks(s.board, O) <= 9
  {
    InitialConsistent();
    RunConsistent(Initial(), cmds);
    var s := Run(Initial(), cmds);
    CellTotal(s.board);
  }

  /** In every state the screen can reach, the recorded result agrees with
      the board: a winner owns a line and the loser owns none, a draw is a
      full board without lines (no empty cell left), and an undecided game
      has an empty cell and no line. */
  lemma ReachableVerdictSound(cmds: seq<Command>)
    ensures var s := Run(Initial(), cmds);
      && (s.winner.Won? ==> Completes(s.board, s.winner.player) && !Completes(s.board, Other(s.winner.player)))
      && (s.winner == Draw ==> Full(s.board) && !Completes(s.board, X) && !Completes(s.board, O))
      && (s.winner == Undecided ==> !Full(s.board) && !Completes(s.board, X) && !Completes(s.board, O))
      && (s.winner == Draw ==> Empties(s.board) == 0)
      && (s.winner == Undecided ==> Empties(s.board) > 0)
  {
    InitialConsistent();
    RunConsistent(Initial(), cmds);
    FullIffNoEmpties(Run(Initial(), cmds).board);
  }

  // ---------------------------------------------------------------------
  // Who starts the next game

  /** The mark balance of a game that `first` started on an empty board:
      `first` has as many marks as the other player or one more, and whose
      turn it is (or, once decided, who moved last) follows from that. */
  predicate StartedBy(s: State, first: Player) {
    var a, b := Marks(s.board, first), Marks(s.board, Other(first));
    && (a == b || a == b + 1)
    && (s.winner == Undecided ==> (s.current == first <==> a == b))
    && (s.winner != Undecided ==> (s.current == first <==> a == b + 1))
  }

  /** Presses keep the balance of the game's first player. */
  lemma {:induction false} TapsKeepStarter(s: State, first: Player, cmds: seq<Command>)
    requires StartedBy(s, first)
    requires AllTaps(cmds)
    ensures StartedBy(Run(s, cmds), first)
    decreases |cmds|
  {
    if |cmds| > 0 {
      var row, col := cmds[0].row, cmds[0].col;
      if Accepted(s, row, col) {
        PressCounts(s, row, col);
      }
      TapsKeepStarter(Step(s, cmds[0]), first, cmds[1..]);
    }
  }

  /** Confirming a restart after a game that `g.current` started on an
      empty board hands the next game to the other player only when the
      starter made the last move (holds one mark more than the other player).
      When the second player ended the game, or when the restart comes
      mid-game with the second player to move, the same player starts again:
      the code flips the current player, not the previous starter. */
  lemma NextStarter(g: State, cmds: seq<Command>)
    requires g.winner == Undecided && forall i: Coord, j: Coord :: g.board[i][j] == Empty
    requires AllTaps(cmds)
    ensures var s := Run(g, cmds);
      var first, second := Marks(s.board, g.current), Marks(s.board, Other(g.current));
      && (s.winner != Undecided ==> (Restart(s).current == Other(g.current) <==> first == second + 1))
      && (s.winner == Undecided ==> (Restart(s).current == Other(g.current) <==> first == second))
  {
    BlankCounts(g.board);
    assert StartedBy(g, g.current);
    TapsKeepStarter(g, g.current, cmds);
  }
}
