/**
 The board and rules of the game: the two players, the 3x3 board of cells,
 the empty board, placing one mark, and the win/draw evaluation.

 The application imports `createEmptyBoard` and `checkWinner` from a
 `utils/gameLogic` file that is not part of this model; `EmptyBoard` and
 `CheckWinner` below are a reconstruction of those two functions from how the
 game screen uses them (an all-empty grid; a falsy value while play goes on,
 the mark of the player owning a completed row, column or diagonal, or
 `'Draw'` for a full board without such a line). They are not a transcription.
 */
module Rules {

  datatype Player = X | O

  /** A cell of the board: `null` in the source, or one player's mark. */
  datatype Cell = Empty | Mark(player: Player)

  /** What `checkWinner` reports and what the game stores as `winner`:
      a falsy value (`Undecided`), a winning player, or `'Draw'`. */
  datatype Verdict = Undecided | Won(player: Player) | Draw

  datatype Option<T> = None | Some(value: T)

  /** A row or column index the board hands to the press handler. */
  type Coord = i: int | 0 <= i < 3

  predicate IsGrid(b: seq<seq<Cell>>) {
    |b| == 3 && forall i :: 0 <= i < 3 ==> |b[i]| == 3
  }

  /** Three rows of three cells, row-major. */
  type Board = b: seq<seq<Cell>> | IsGrid(b)
    witness [[Empty, Empty, Empty], [Empty, Empty, Empty], [Empty, Empty, Empty]]

  /** The player who moves after `p`. */
  function Other(p: Player): (q: Player)
    ensures q != p
  {
    if p == X then O else X
  }

  /** `createEmptyBoard`: a 3x3 grid with no mark anywhere. */
  function EmptyBoard(): (b: Board)
    ensures forall i: Coord, j: Coord :: b[i][j] == Empty
  {
    [[Empty, Empty, Empty], [Empty, Empty, Empty], [Empty, Empty, Empty]]
  }

  /** Copy the board and write `v` at (row, col): the one cell changes and
      every other cell keeps the old board's value. */
  function Place(b: Board, row: Coord, col: Coord, v: Cell): (r: Board)
    ensures r[row][col] == v
    ensures forall i: Coord, j: Coord :: (i != row || j != col) ==> r[i][j] == b[i][j]
  {
    b[row := b[row][col := v]]
  }

  /** Two boards with the same cells are the same board. */
  lemma BoardExt(a: Board, b: Board)
    requires forall i: Coord, j: Coord :: a[i][j] == b[i][j]
    ensures a == b
  {
    forall i: Coord
      ensures a[i] == b[i]
    {
      assert a[i][0] == b[i][0] && a[i][1] == b[i][1] && a[i][2] == b[i][2];
    }
  }

  // ---------------------------------------------------------------------
  // Counting cells

  /** The nine cells in row-major order. */
  function Cells(b: Board): (s: seq<Cell>)
    ensures |s| == 9
    ensures forall i: Coord, j: Coord :: s[3 * i + j] == b[i][j]
  {
    b[0] + b[1] + b[2]
  }

  /** Number of occurrences of `v` in `s`. */
  function Count(s: seq<Cell>, v: Cell): (n: nat)
    ensures n <= |s|
  {
    if |s| == 0 then 0 else (if s[0] == v then 1 else 0) + Count(s[1..], v)
  }

  /** Number of `p`'s marks on the board. */
  function Marks(b: Board, p: Player): nat {
    Count(Cells(b), Mark(p))
  }

  /** Number of empty cells on the board. */
  function Empties(b: Board): nat {
    Count(Cells(b), Empty)
  }

  predicate Full(b: Board) {
    forall i: Coord, j: Coord :: b[i][j] != Empty
  }

  /** Count(s, v) is zero exactly when no element of `s` is `v`. */
  lemma {:induction false} CountZero(s: seq<Cell>, v: Cell)
    ensures Count(s, v) == 0 <==> forall k :: 0 <= k < |s| ==> s[k] != v
  {
    if |s| > 0 {
      CountZero(s[1..], v);
      assert forall k :: 1 <= k < |s| ==> s[k] == s[1..][k - 1];
    }
  }

  /** Every cell is empty or holds one of the two marks. */
  lemma {:induction false} CountPartition(s: seq<Cell>)
    ensures Count(s, Empty) + Count(s, Mark(X)) + Count(s, Mark(O)) == |s|
  {
    if |s| > 0 {
      CountPartition(s[1..]);
      match s[0]
      case Empty =>
      case Mark(X) =>
      case Mark(O) =>
    }
  }

  /** Overwriting position `k` with a different value adds one occurrence of
      the new value, removes one of the old value and leaves every other
      value's count alone. */
  lemma {:induction false} CountUpdate(s: seq<Cell>, k: nat, v: Cell, u: Cell)
    requires k < |s| && s[k] != v
    ensures Count(s[k := v], v) == Count(s, v) + 1
    ensures Count(s[k := v], s[k]) + 1 == Count(s, s[k])
    ensures u != v && u != s[k] ==> Count(s[k := v], u) == Count(s, u)
  {
    if k == 0 {
      assert s[k := v][1..] == s[1..];
    } else {
      CountUpdate(s[1..], k - 1, v, u);
      assert s[k := v][1..] == s[1..][k - 1 := v];
    }
  }

  lemma CellsOfPlace(b: Board, row: Coord, col: Coord, v: Cell)
    ensures Cells(Place(b, row, col, v)) == Cells(b)[3 * row + col := v]
  {
    var l, r := Cells(Place(b, row, col, v)), Cells(b)[3 * row + col := v];
    forall k | 0 <= k < 9
      ensures l[k] == r[k]
    {
      var i: Coord, j: Coord := k / 3, k % 3;
      assert k == 3 * i + j;
    }
  }

  /** The board is full exactly when no cell is empty. */
  lemma FullIffNoEmpties(b: Board)
    ensures Full(b) <==> Empties(b) == 0
  {
    CountZero(Cells(b), Empty);
    if Empties(b) == 0 {
      forall i: Coord, j: Coord
        ensures b[i][j] != Empty
      {
        assert Cells(b)[3 * i + j] == b[i][j];
      }
    }
    if Full(b) {
      forall k | 0 <= k < 9
        ensures Cells(b)[k] != Empty
      {
        var i: Coord, j: Coord := k / 3, k % 3;
        assert k == 3 * i + j;
      }
    }
  }

  /** Marks and empty cells together make up the nine cells. */
  lemma CellTotal(b: Board)
    ensures Empties(b) + Marks(b, X) + Marks(b, O) == 9
  {
    CountPartition(Cells(b));
  }

  /** Putting `p`'s mark on an empty cell adds one mark of `p`, removes one
      empty cell and leaves the other player's marks unchanged. */
  lemma PlaceCounts(b: Board, row: Coord, col: Coord, p: Player)
    requires b[row][col] == Empty
    ensures Marks(Place(b, row, col, Mark(p)), p) == Marks(b, p) + 1
    ensures Marks(Place(b, row, col, Mark(p)), Other(p)) == Marks(b, Other(p))
    ensures Empties(Place(b, row, col, Mark(p))) + 1 == Empties(b)
  {
    CellsOfPlace(b, row, col, Mark(p));
    CountUpdate(Cells(b), 3 * row + col, Mark(p), Mark(Other(p)));
  }

  /** A board without marks has nine empty cells and no marks. */
  lemma BlankCounts(b: Board)
    requires forall i: Coord, j: Coord :: b[i][j] == Empty
    ensures Empties(b) == 9
    ensures Marks(b, X) == 0 && Marks(b, O) == 0
  {
    var s := Cells(b);
    forall k | 0 <= k < 9
      ensures s[k] == Empty
    {
      var i: Coord, j: Coord := k / 3, k % 3;
      assert k == 3 * i + j;
    }
    CountZero(s, Mark(X));
    CountZero(s, Mark(O));
    CellTotal(b);
  }

  // ---------------------------------------------------------------------
  // Lines and the verdict

  datatype Pos = Pos(row: Coord, col: Coord)

  /** The eight winning lines in the fixed scan order: rows top to bottom,
      columns left to right, then the two diagonals. */
  const Lines: seq<seq<Pos>> := [
    [Pos(0, 0), Pos(0, 1), Pos(0, 2)],
    [Pos(1, 0), Pos(1, 1), Pos(1, 2)],
    [Pos(2, 0), Pos(2, 1), Pos(2, 2)],
    [Pos(0, 0), Pos(1, 0), Pos(2, 0)],
    [Pos(0, 1), Pos(1, 1), Pos(2, 1)],
    [Pos(0, 2), Pos(1, 2), Pos(2, 2)],
    [Pos(0, 0), Pos(1, 1), Pos(2, 2)],
    [Pos(0, 2), Pos(1, 1), Pos(2, 0)]
  ]

  function At(b: Board, p: Pos): Cell {
    b[p.row][p.col]
  }

  /** All three cells of `line` hold `p`'s mark. */
  predicate Owns(b: Board, line: seq<Pos>, p: Player)
    requires |line| == 3
  {
    At(b, line[0]) == Mark(p) && At(b, line[1]) == Mark(p) && At(b, line[2]) == Mark(p)
  }

  /** The line check: the mark in the first cell of `line` when the other
      two cells hold the same mark, and nothing otherwise. */
  function LineOwner(b: Board, line: seq<Pos>): (r: Option<Player>)
    requires |line| == 3
    ensures r.Some? ==> Owns(b, line, r.value)
    ensures r.None? ==> !Owns(b, line, X) && !Owns(b, line, O)
  {
    match At(b, line[0])
    case Empty => None
    case Mark(p) =>
      if At(b, line[1]) == Mark(p) && At(b, line[2]) == Mark(p) then Some(p) else None
  }

  /** `p` owns at least one of the eight lines. */
  predicate Completes(b: Board, p: Player) {
    exists k :: 0 <= k < |Lines| && Owns(b, Lines[k], p)
  }

  /** Independent statement of "three in a row" over rows, columns and the two
      diagonals, written without the line table. */
  predicate ThreeInARow(b: Board, p: Player) {
    || (exists i: Coord :: b[i][0] == Mark(p) && b[i][1] == Mark(p) && b[i][2] == Mark(p))
    || (exists j: Coord :: b[0][j] == Mark(p) && b[1][j] == Mark(p) && b[2][j] == Mark(p))
    || (b[0][0] == Mark(p) && b[1][1] == Mark(p) && b[2][2] == Mark(p))
    || (b[0][2] == Mark(p) && b[1][1] == Mark(p) && b[2][0] == Mark(p))
  }

  /** Every row, column and diagonal appears in the line table. */
  lemma ThreeInARowCompletes(b: Board, p: Player)
    requires ThreeInARow(b, p)
    ensures Completes(b, p)
  {
    if exists i: Coord :: b[i][0] == Mark(p) && b[i][1] == Mark(p) && b[i][2] == Mark(p) {
      var i: Coord :| b[i][0] == Mark(p) && b[i][1] == Mark(p) && b[i][2] == Mark(p);
      assert Owns(b, Lines[i], p);
    } else if exists j: Coord :: b[0][j] == Mark(p) && b[1][j] == Mark(p) && b[2][j] == Mark(p) {
      var j: Coord :| b[0][j] == Mark(p) && b[1][j] == Mark(p) && b[2][j] == Mark(p);
      assert Owns(b, Lines[3 + j], p);
    } else if b[0][0] == Mark(p) && b[1][1] == Mark(p) && b[2][2] == Mark(p) {
      assert Owns(b, Lines[6], p);
    } else {
      assert Owns(b, Lines[7], p);
    }
  }

  /** Every entry of the line table is a row, a column or a diagonal. */
  lemma CompletesThreeInARow(b: Board, p: Player)
    requires Completes(b, p)
    ensures ThreeInARow(b, p)
  {
    var k :| 0 <= k < |Lines| && Owns(b, Lines[k], p);
    if k < 3 {
      var i: Coord := k;
      assert b[i][0] == Mark(p) && b[i][1] == Mark(p) && b[i][2] == Mark(p);
    } else if k < 6 {
      var j: Coord := k - 3;
      assert b[0][j] == Mark(p) && b[1][j] == Mark(p) && b[2][j] == Mark(p);
    }
  }

  /** The line table covers exactly the rows, columns and diagonals. */
  lemma CompletesIffThreeInARow(b: Board, p: Player)
    ensures Completes(b, p) <==> ThreeInARow(b, p)
  {
    if ThreeInARow(b, p) {
      ThreeInARowCompletes(b, p);
    }
    if Completes(b, p) {
      CompletesThreeInARow(b, p);
    }
  }

  /** Index of the first owned line at `from` or later in table order, or
      `|Lines|` when there is none. */
  function FirstLine(b: Board, from: nat): (k: nat)
    requires from <= |Lines|
    ensures from <= k <= |Lines|
    ensures k < |Lines| ==> LineOwner(b, Lines[k]).Some?
    ensures forall m :: from <= m < k ==> LineOwner(b, Lines[m]).None?
    decreases |Lines| - from
  {
    if from == |Lines| || LineOwner(b, Lines[from]).Some? then from
    else FirstLine(b, from + 1)
  }

  /** A line found by the scan is a completed line of its owner. */
  lemma ScanFound(b: Board)
    requires FirstLine(b, 0) < |Lines|
    ensures Completes(b, LineOwner(b, Lines[FirstLine(b, 0)]).value)
    ensures Completes(b, X) || Completes(b, O)
  {
    var k := FirstLine(b, 0);
    var p := LineOwner(b, Lines[k]).value;
    assert Owns(b, Lines[k], p);
    if p == X {
      assert Completes(b, X);
    } else {
      assert Completes(b, O);
    }
  }

  /** When the scan finds nothing, neither player completes a line. */
  lemma ScanMissed(b: Board)
    requires FirstLine(b, 0) == |Lines|
    ensures !Completes(b, X) && !Completes(b, O)
  {
    forall k | 0 <= k < |Lines|
      ensures !Owns(b, Lines[k], X) && !Owns(b, Lines[k], O)
    {
      assert LineOwner(b, Lines[k]).None?;
    }
  }

  /** `checkWinner`: the owner of the first completed line in scan order;
      otherwise `Draw` on a full board and `Undecided` on a board with an
      empty cell. The contract states the result both against the line table
      and against the independent row/column/diagonal predicate. */
  function CheckWinner(b: Board): (r: Verdict)
    ensures r.Won? ==> Completes(b, r.player)
    ensures (exists p :: Completes(b, p)) ==> r.Won?
    ensures r == Draw <==> Full(b) && !Completes(b, X) && !Completes(b, O)
    ensures r == Undecided <==> !Full(b) && !Completes(b, X) && !Completes(b, O)
    ensures r.Won? ==> ThreeInARow(b, r.player)
    ensures (ThreeInARow(b, X) || ThreeInARow(b, O)) ==> r.Won?
    ensures r == Draw <==> Full(b) && !ThreeInARow(b, X) && !ThreeInARow(b, O)
  {
    CompletesIffThreeInARow(b, X);
    CompletesIffThreeInARow(b, O);
    var k := FirstLine(b, 0);
    if k < |Lines| then
      ScanFound(b);
      Won(LineOwner(b, Lines[k]).value)
    else
      ScanMissed(b);
      if Full(b) then Draw else Undecided
  }

  /** The empty board has no result yet. */
  lemma CheckWinnerEmptyBoard()
    ensures CheckWinner(EmptyBoard()) == Undecided
  {
    var b := EmptyBoard();
    forall k | 0 <= k < |Lines|
      ensures !Owns(b, Lines[k], X) && !Owns(b, Lines[k], O)
    {
      assert At(b, Lines[k][0]) == Empty;
    }
    assert b[0][0] == Empty;
  }

  /** On a board where only one player owns a line, that player is the
      winner, whatever the scan order. */
  lemma CheckWinnerSoleOwner(b: Board, p: Player)
    requires Completes(b, p) && !Completes(b, Other(p))
    ensures CheckWinner(b) == Won(p)
  {
  }

  /** On a malformed board where both players own lines, the verdict goes to
      the owner of the first owned line in scan order. */
  lemma CheckWinnerFirstLine(b: Board, k: nat, p: Player)
    requires k < |Lines| && Owns(b, Lines[k], p)
    requires forall m :: 0 <= m < k ==> !Owns(b, Lines[m], X) && !Owns(b, Lines[m], O)
    ensures CheckWinner(b) == Won(p)
  {
    var j := FirstLine(b, 0);
    assert j <= k;
  }

  lemma PlaceAt(b: Board, row: Coord, col: Coord, v: Cell, q: Pos)
    ensures At(Place(b, row, col, v), q) == if q == Pos(row, col) then v else At(b, q)
  {
  }

  /** Putting `p`'s mark somewhere cannot complete a line for the other
      player. */
  lemma PlaceKeepsOtherLines(b: Board, row: Coord, col: Coord, p: Player)
    requires !Completes(b, Other(p))
    ensures !Completes(Place(b, row, col, Mark(p)), Other(p))
  {
    var b' := Place(b, row, col, Mark(p));
    forall k | 0 <= k < |Lines|
      ensures !Owns(b', Lines[k], Other(p))
    {
      var line := Lines[k];
      assert !Owns(b, line, Other(p));
      PlaceAt(b, row, col, Mark(p), line[0]);
      PlaceAt(b, row, col, Mark(p), line[1]);
      PlaceAt(b, row, col, Mark(p), line[2]);
    }
  }
}
