/** A model of the tic-tac-toe game engine: the cell and player values, a 3x3
    board stored in place, the single move operation and the win/draw rules. */
module TicTacToe {

  // ---------------------------------------------------------------------------
  // Values
  // ---------------------------------------------------------------------------

  datatype Player = X | O

  /** The content of one cell. The default of a cell is `Empty`. */
  datatype BoardValue = Filled(owner: Player) | Empty

  /** What a move reports: play goes on, someone has won, or the board is full. */
  datatype GameStatus = Continue | PlayerWins(winner: Player) | Draw

  /** The only recoverable error: the target cell is already occupied. */
  datatype PlayError = InvalidMove

  datatype Result<T, E> = Ok(value: T) | Err(error: E)

  datatype Option<T> = None | Some(value: T)

  /** The player who moves first, and the default player. */
  const FirstPlayer: Player := X

  /** A snapshot of the board: three rows of three cells, row-major. */
  type Grid = g: seq<seq<BoardValue>> | |g| == 3 && forall i | 0 <= i < 3 :: |g[i]| == 3
    witness [[Empty, Empty, Empty], [Empty, Empty, Empty], [Empty, Empty, Empty]]

  /** The three cells of one winnable line, in board order. */
  type Slice = s: seq<BoardValue> | |s| == 3 witness [Empty, Empty, Empty]

  /** The player whose turn comes after `p`'s. */
  function Other(p: Player): (q: Player)
    ensures q != p
  {
    match p
    case X => O
    case O => X
  }

  lemma OtherInvolutive(p: Player)
    ensures Other(Other(p)) == p
  {
  }

  /** The owner of a filled cell; the source panics on an empty one. */
  function PlayerOf(v: BoardValue): (p: Player)
    requires v != Empty
    ensures v == Filled(p)
  {
    v.owner
  }

  /** The text a player is shown as. */
  function PlayerSymbol(p: Player): (s: string)
    ensures |s| == 1 && s != " "
    ensures s == "X" <==> p == X
    ensures s == "O" <==> p == O
  {
    match p
    case X => "X"
    case O => "O"
  }

  /** The text a cell is shown as inside the rendered board. */
  function Symbol(v: BoardValue): (s: string)
    ensures |s| == 1
    ensures s == " " <==> v == Empty
    ensures v != Empty ==> s == PlayerSymbol(v.owner)
  {
    match v
    case Filled(p) => PlayerSymbol(p)
    case Empty => " "
  }

  /** Distinct cell values are shown differently. */
  lemma SymbolInjective(v: BoardValue, w: BoardValue)
    requires Symbol(v) == Symbol(w)
    ensures v == w
  {
  }

  // ---------------------------------------------------------------------------
  // The board as a value
  // ---------------------------------------------------------------------------

  /** The default board: every cell at its default. */
  function EmptyGrid(): (g: Grid)
    ensures forall r, c | 0 <= r < 3 && 0 <= c < 3 :: g[r][c] == Empty
  {
    [[Empty, Empty, Empty], [Empty, Empty, Empty], [Empty, Empty, Empty]]
  }

  /** `g` with the one cell at (row, column) overwritten by `v`. */
  function Mark(g: Grid, row: nat, column: nat, v: BoardValue): (h: Grid)
    requires row < 3 && column < 3
    ensures h[row][column] == v
    ensures forall r, c | 0 <= r < 3 && 0 <= c < 3 && (r != row || c != column) :: h[r][c] == g[r][c]
  {
    g[row := g[row][column := v]]
  }

  /** Two boards with the same cells are the same board. */
  lemma GridEquality(g: Grid, h: Grid)
    requires forall r, c | 0 <= r < 3 && 0 <= c < 3 :: g[r][c] == h[r][c]
    ensures g == h
  {
    assert g[0] == h[0] && g[1] == h[1] && g[2] == h[2];
  }

  /** The eight lines of the board: rows top to bottom, columns left to right,
      the main diagonal, then the anti-diagonal. */
  function WinnableSlices(g: Grid): (lines: seq<Slice>)
    ensures |lines| == 8
  {
    [
      // rows
      [g[0][0], g[0][1], g[0][2]],
      [g[1][0], g[1][1], g[1][2]],
      [g[2][0], g[2][1], g[2][2]],
      // columns
      [g[0][0], g[1][0], g[2][0]],
      [g[0][1], g[1][1], g[2][1]],
      [g[0][2], g[1][2], g[2][2]],
      // diagonals
      [g[0][0], g[1][1], g[2][2]],
      [g[0][2], g[1][1], g[2][0]]
    ]
  }

  /** The order of the line table: rows top to bottom, then columns left to
      right, then the main diagonal, then the anti-diagonal. */
  lemma WinnableSlicesOrder(g: Grid)
    ensures forall r | 0 <= r < 3 :: WinnableSlices(g)[r] == g[r]
    ensures forall c | 0 <= c < 3 :: WinnableSlices(g)[3 + c] == [g[0][c], g[1][c], g[2][c]]
    ensures WinnableSlices(g)[6] == [g[0][0], g[1][1], g[2][2]]
    ensures WinnableSlices(g)[7] == [g[0][2], g[1][1], g[2][0]]
  {
  }

  /** The nine cells, flattened row by row. */
  function AllCells(g: Grid): (cells: seq<BoardValue>)
    ensures |cells| == 9
    ensures forall r, c | 0 <= r < 3 && 0 <= c < 3 :: cells[3 * r + c] == g[r][c]
  {
    g[0] + g[1] + g[2]
  }

  // ---------------------------------------------------------------------------
  // Outcome detection
  // ---------------------------------------------------------------------------

  /** The test the engine applies to each line: filled, and all three equal. */
  predicate IsWinningSlice(s: Slice) {
    s[0] != Empty && s[0] == s[1] && s[1] == s[2]
  }

  /** The owner of the first winning line at index `k` or later, if any. */
  function FirstWin(lines: seq<Slice>, k: nat): (w: Option<Player>)
    requires k <= |lines|
    decreases |lines| - k
    ensures w == None <==> forall i | k <= i < |lines| :: !IsWinningSlice(lines[i])
    ensures w.Some? ==>
      exists i | k <= i < |lines| ::
        && IsWinningSlice(lines[i]) && lines[i][0] == Filled(w.value)
        && forall j | k <= j < i :: !IsWinningSlice(lines[j])
  {
    if k == |lines| then None
    else if IsWinningSlice(lines[k]) then Some(PlayerOf(lines[k][0]))
    else FirstWin(lines, k + 1)
  }

  /** The status of a board: the owner of the first winning line, else a draw
      when no cell is empty, else play continues. */
  function StatusOf(g: Grid): (status: GameStatus)
    ensures status.PlayerWins? <==> exists k | 0 <= k < 8 :: IsWinningSlice(WinnableSlices(g)[k])
    ensures status.PlayerWins? ==>
      exists k | 0 <= k < 8 :: IsWinningSlice(WinnableSlices(g)[k]) && WinnableSlices(g)[k][0] == Filled(status.winner)
    ensures !status.PlayerWins? ==> (status == Draw <==> Empty !in AllCells(g))
  {
    match FirstWin(WinnableSlices(g), 0)
    case Some(p) => PlayerWins(p)
    case None => if Empty !in AllCells(g) then Draw else Continue
  }

  // The rules of the game, stated independently of the slice table.

  ghost predicate RowOwned(g: Grid, p: Player, r: nat)
    requires r < 3
  {
    forall c | 0 <= c < 3 :: g[r][c] == Filled(p)
  }

  ghost predicate ColumnOwned(g: Grid, p: Player, c: nat)
    requires c < 3
  {
    forall r | 0 <= r < 3 :: g[r][c] == Filled(p)
  }

  ghost predicate DiagonalOwned(g: Grid, p: Player) {
    forall i | 0 <= i < 3 :: g[i][i] == Filled(p)
  }

  ghost predicate AntiDiagonalOwned(g: Grid, p: Player) {
    forall i | 0 <= i < 3 :: g[i][2 - i] == Filled(p)
  }

  /** `p` holds a complete row, column or diagonal. */
  ghost predicate Won(g: Grid, p: Player) {
    || (exists r: nat | r < 3 :: RowOwned(g, p, r))
    || (exists c: nat | c < 3 :: ColumnOwned(g, p, c))
    || DiagonalOwned(g, p)
    || AntiDiagonalOwned(g, p)
  }

  ghost predicate NoWin(g: Grid) {
    forall p :: !Won(g, p)
  }

  /** No cell is empty. */
  ghost predicate Full(g: Grid) {
    forall r, c | 0 <= r < 3 && 0 <= c < 3 :: g[r][c] != Empty
  }

  ghost predicate SliceOwned(s: Slice, p: Player) {
    forall i | 0 <= i < 3 :: s[i] == Filled(p)
  }

  /** A line passes the engine's test exactly when one player owns all of it. */
  lemma WinningSliceIsOwned(s: Slice)
    ensures IsWinningSlice(s) <==> exists p :: SliceOwned(s, p)
    ensures IsWinningSlice(s) ==> SliceOwned(s, s[0].owner)
  {
    if IsWinningSlice(s) {
      assert SliceOwned(s, s[0].owner);
    }
  }

  /** The slice table lists exactly the rows, columns and diagonals. */
  lemma SliceOwnedIffWon(g: Grid, p: Player)
    ensures (exists k | 0 <= k < 8 :: SliceOwned(WinnableSlices(g)[k], p)) <==> Won(g, p)
  {
    var lines := WinnableSlices(g);
    if exists k | 0 <= k < 8 :: SliceOwned(lines[k], p) {
      var k :| 0 <= k < 8 && SliceOwned(lines[k], p);
      assert lines[k][0] == Filled(p) && lines[k][1] == Filled(p) && lines[k][2] == Filled(p);
      if k < 3 {
        assert RowOwned(g, p, k);
      } else if k < 6 {
        assert ColumnOwned(g, p, k - 3);
      } else if k == 6 {
        assert DiagonalOwned(g, p);
      } else {
        assert AntiDiagonalOwned(g, p);
      }
    }
    if Won(g, p) {
      if r: nat :| r < 3 && RowOwned(g, p, r) {
        assert g[r][0] == Filled(p) && g[r][1] == Filled(p) && g[r][2] == Filled(p);
        assert SliceOwned(lines[r], p);
      } else if c: nat :| c < 3 && ColumnOwned(g, p, c) {
        assert g[0][c] == Filled(p) && g[1][c] == Filled(p) && g[2][c] == Filled(p);
        assert SliceOwned(lines[3 + c], p);
      } else if DiagonalOwned(g, p) {
        assert g[0][0] == Filled(p) && g[1][1] == Filled(p) && g[2][2] == Filled(p);
        assert SliceOwned(lines[6], p);
      } else {
        assert g[0][2] == Filled(p) && g[1][1] == Filled(p) && g[2][0] == Filled(p);
        assert SliceOwned(lines[7], p);
      }
    }
  }

  /** The draw check over the flattened cells is the same as "no cell is empty". */
  lemma NoEmptyCellIffFull(g: Grid)
    ensures Empty !in AllCells(g) <==> Full(g)
  {
  }

  /** A reported winner owns the first line, in table order, that passes the
      test, and no earlier line passes it. */
  lemma StatusFirstMatch(g: Grid, p: Player)
    ensures StatusOf(g) == PlayerWins(p) <==>
      exists k | 0 <= k < 8 ::
        && SliceOwned(WinnableSlices(g)[k], p)
        && forall j | 0 <= j < k :: !IsWinningSlice(WinnableSlices(g)[j])
  {
    var lines := WinnableSlices(g);
    if StatusOf(g) == PlayerWins(p) {
      var k :| 0 <= k < 8 && IsWinningSlice(lines[k]) && lines[k][0] == Filled(p)
        && forall j | 0 <= j < k :: !IsWinningSlice(lines[j]);
      WinningSliceIsOwned(lines[k]);
    }
    if exists k | 0 <= k < 8 :: SliceOwned(lines[k], p) && forall j | 0 <= j < k :: !IsWinningSlice(lines[j]) {
      var k :| 0 <= k < 8 && SliceOwned(lines[k], p) && forall j | 0 <= j < k :: !IsWinningSlice(lines[j]);
      assert IsWinningSlice(lines[k]);
      var w := FirstWin(lines, 0);
      var i :| 0 <= i < 8 && IsWinningSlice(lines[i]) && lines[i][0] == Filled(w.value)
        && forall j | 0 <= j < i :: !IsWinningSlice(lines[j]);
      assert i == k;
    }
  }

  /** A win is reported exactly when some player holds a line, and the
      reported player does hold one. */
  lemma StatusWinIffWon(g: Grid)
    ensures StatusOf(g).PlayerWins? <==> !NoWin(g)
    ensures StatusOf(g).PlayerWins? ==> Won(g, StatusOf(g).winner)
  {
    var lines := WinnableSlices(g);
    var w := FirstWin(lines, 0);
    if w.Some? {
      var i :| 0 <= i < 8 && IsWinningSlice(lines[i]) && lines[i][0] == Filled(w.value);
      WinningSliceIsOwned(lines[i]);
      SliceOwnedIffWon(g, w.value);
    } else {
      forall p
        ensures !Won(g, p)
      {
        SliceOwnedIffWon(g, p);
        forall k | 0 <= k < 8
          ensures !SliceOwned(lines[k], p)
        {
          WinningSliceIsOwned(lines[k]);
        }
      }
    }
  }

  /** `Draw` exactly when nobody holds a line and no cell is empty. */
  lemma StatusDrawIff(g: Grid)
    ensures StatusOf(g) == Draw <==> NoWin(g) && Full(g)
  {
    StatusWinIffWon(g);
    NoEmptyCellIffFull(g);
  }

  /** `Continue` exactly when nobody holds a line and some cell is empty. */
  lemma StatusContinueIff(g: Grid)
    ensures StatusOf(g) == Continue <==> NoWin(g) && !Full(g)
  {
    StatusWinIffWon(g);
    NoEmptyCellIffFull(g);
  }

  /** A full board on which a line is complete is a win, never a draw. */
  lemma WinBeatsDraw(g: Grid, p: Player)
    requires Full(g) && Won(g, p)
    ensures StatusOf(g).PlayerWins?
  {
    StatusWinIffWon(g);
  }

  /** A line `q` holds after a cell is marked for someone else was already
      held by `q` before. */
  lemma MarkKeepsOthersLines(g: Grid, row: nat, column: nat, p: Player, q: Player)
    requires row < 3 && column < 3
    requires q != p
    ensures Won(Mark(g, row, column, Filled(p)), q) ==> Won(g, q)
  {
    var h := Mark(g, row, column, Filled(p));
    if r: nat :| r < 3 && RowOwned(h, q, r) {
      assert RowOwned(g, q, r) by {
        forall c | 0 <= c < 3 ensures g[r][c] == Filled(q) {
          assert h[r][c] == Filled(q);
        }
      }
    } else if c: nat :| c < 3 && ColumnOwned(h, q, c) {
      assert ColumnOwned(g, q, c) by {
        forall r | 0 <= r < 3 ensures g[r][c] == Filled(q) {
          assert h[r][c] == Filled(q);
        }
      }
    } else if DiagonalOwned(h, q) {
      assert DiagonalOwned(g, q) by {
        forall i | 0 <= i < 3 ensures g[i][i] == Filled(q) {
          assert h[i][i] == Filled(q);
        }
      }
    } else if AntiDiagonalOwned(h, q) {
      assert AntiDiagonalOwned(g, q) by {
        forall i | 0 <= i < 3 ensures g[i][2 - i] == Filled(q) {
          assert h[i][2 - i] == Filled(q);
        }
      }
    }
  }

  /** Marking one cell for `p` on a board nobody has won can complete lines
      for `p` only, so the first-match order cannot pick another player. */
  lemma OnlyMoverCanWin(g: Grid, row: nat, column: nat, p: Player)
    requires row < 3 && column < 3
    requires NoWin(g)
    ensures forall q :: Won(Mark(g, row, column, Filled(p)), q) ==> q == p
    ensures StatusOf(Mark(g, row, column, Filled(p))).PlayerWins? ==>
      StatusOf(Mark(g, row, column, Filled(p))).winner == p
  {
    MarkKeepsOthersLines(g, row, column, p, Other(p));
    StatusWinIffWon(Mark(g, row, column, Filled(p)));
  }

  // ---------------------------------------------------------------------------
  // One move, as a transition between game states
  // ---------------------------------------------------------------------------

  /** What a game holds: the board and the player to move. */
  datatype State = State(cells: Grid, current: Player)

  /** A move's report together with the state it leaves behind. */
  datatype Transition = Transition(result: Result<GameStatus, PlayError>, after: State)

  /** The state of a new game. */
  function NewGame(): (s: State)
    ensures s.current == X
    ensures forall r, c | 0 <= r < 3 && 0 <= c < 3 :: s.cells[r][c] == Empty
  {
    State(EmptyGrid(), FirstPlayer)
  }

  /** The effect of the move operation on a game state. */
  function Step(s: State, row: nat, column: nat): (t: Transition)
    requires row < 3 && column < 3
    // an occupied cell: refused, and nothing changes
    ensures s.cells[row][column] != Empty ==> t == Transition(Err(InvalidMove), s)
    // an empty cell: it and only it now holds the mover's mark
    ensures s.cells[row][column] == Empty ==>
      && t.result.Ok?
      && t.after.cells[row][column] == Filled(s.current)
      && forall r, c | 0 <= r < 3 && 0 <= c < 3 && (r != row || c != column) ::
           t.after.cells[r][c] == s.cells[r][c]
    // the status reported is that of the new board
    ensures t.result.Ok? ==> t.result.value == StatusOf(t.after.cells)
    // the turn passes exactly when play continues
    ensures t.result.Ok? ==> (t.after.current != s.current <==> t.result.value == Continue)
    // no filled cell is ever emptied or changed
    ensures forall r, c | 0 <= r < 3 && 0 <= c < 3 && s.cells[r][c] != Empty ::
      t.after.cells[r][c] == s.cells[r][c]
  {
    if s.cells[row][column] != Empty then
      Transition(Err(InvalidMove), s)
    else
      var cells := Mark(s.cells, row, column, Filled(s.current));
      var status := StatusOf(cells);
      Transition(Ok(status), State(cells, if status == Continue then Other(s.current) else s.current))
  }

  /** A refused move can be repeated any number of times with the same answer. */
  lemma RepeatedInvalidMoveRefused(s: State, row: nat, column: nat)
    requires row < 3 && column < 3
    requires s.cells[row][column] != Empty
    ensures Step(s, row, column).result == Err(InvalidMove)
    ensures Step(Step(s, row, column).after, row, column) == Step(s, row, column)
  {
  }

  /** On a board nobody has won yet, a move can only be won by the player who
      made it. */
  lemma StepWinnerIsMover(s: State, row: nat, column: nat)
    requires row < 3 && column < 3
    requires NoWin(s.cells)
    ensures Step(s, row, column).result.Ok? && Step(s, row, column).result.value.PlayerWins? ==>
      Step(s, row, column).result.value.winner == s.current
  {
    if s.cells[row][column] == Empty {
      OnlyMoverCanWin(s.cells, row, column, s.current);
    }
  }

  /** Only the player to move can hold a line: the one who just won keeps the
      turn, and while play continues nobody holds one. */
  ghost predicate OnlyCurrentHolds(s: State) {
    forall q :: Won(s.cells, q) ==> q == s.current
  }

  /** A new game satisfies the invariant: nobody holds a line. */
  lemma NewGameOnlyCurrentHolds()
    ensures NoWin(NewGame().cells)
    ensures OnlyCurrentHolds(NewGame())
  {
    var g := NewGame().cells;
    forall q
      ensures !Won(g, q)
    {
      forall r: nat | r < 3 ensures !RowOwned(g, q, r) { assert g[r][0] == Empty; }
      forall c: nat | c < 3 ensures !ColumnOwned(g, q, c) { assert g[0][c] == Empty; }
      assert g[0][0] == Empty && g[0][2] == Empty;
    }
  }

  /** Every move, including moves made after the game has been won, keeps the
      invariant, and any winner a move reports is the player who made it. */
  lemma StepKeepsOnlyCurrentHolds(s: State, row: nat, column: nat)
    requires row < 3 && column < 3
    requires OnlyCurrentHolds(s)
    ensures OnlyCurrentHolds(Step(s, row, column).after)
    ensures Step(s, row, column).result.Ok? && Step(s, row, column).result.value.PlayerWins? ==>
      Step(s, row, column).result.value.winner == s.current
  {
    if s.cells[row][column] == Empty {
      var p := s.current;
      var h := Mark(s.cells, row, column, Filled(p));
      MarkKeepsOthersLines(s.cells, row, column, p, Other(p));
      StatusContinueIff(h);
      StatusWinIffWon(h);
    }
  }

  // A game in which X takes the top row while O plays the middle row, one
  // lemma per move: X(0,0), O(1,0), X(0,1), O(1,1), X(0,2). The first four
  // moves continue; the fifth completes the row, X wins and keeps the turn.

  /** Move 1: X at (0, 0) gives Continue; the board becomes X.. / ... / .... */
  lemma WinGameMove1()
    ensures Step(State([[Empty, Empty, Empty], [Empty, Empty, Empty], [Empty, Empty, Empty]], X), 0, 0)
      == Transition(Ok(Continue), State([[Filled(X), Empty, Empty], [Empty, Empty, Empty], [Empty, Empty, Empty]], O))
  {
    GridEquality(Mark([[Empty, Empty, Empty], [Empty, Empty, Empty], [Empty, Empty, Empty]], 0, 0, Filled(X)), [[Filled(X), Empty, Empty], [Empty, Empty, Empty], [Empty, Empty, Empty]]);
  }

  /** Move 2: O at (1, 0) gives Continue; the board becomes X.. / O.. / .... */
  lemma WinGameMove2()
    ensures Step(State([[Filled(X), Empty, Empty], [Empty, Empty, Empty], [Empty, Empty, Empty]], O), 1, 0)
      == Transition(Ok(Continue), State([[Filled(X), Empty, Empty], [Filled(O), Empty, Empty], [Empty, Empty, Empty]], X))
  {
    GridEquality(Mark([[Filled(X), Empty, Empty], [Empty, Empty, Empty], [Empty, Empty, Empty]], 1, 0, Filled(O)), [[Filled(X), Empty, Empty], [Filled(O), Empty, Empty], [Empty, Empty, Empty]]);
  }

  /** Move 3: X at (0, 1) gives Continue; the board becomes XX. / O.. / .... */
  lemma WinGameMove3()
    ensures Step(State([[Filled(X), Empty, Empty], [Filled(O), Empty, Empty], [Empty, Empty, Empty]], X), 0, 1)
      == Transition(Ok(Continue), State([[Filled(X), Filled(X), Empty], [Filled(O), Empty, Empty], [Empty, Empty, Empty]], O))
  {
    GridEquality(Mark([[Filled(X), Empty, Empty], [Filled(O), Empty, Empty], [Empty, Empty, Empty]], 0, 1, Filled(X)), [[Filled(X), Filled(X), Empty], [Filled(O), Empty, Empty], [Empty, Empty, Empty]]);
  }

  /** Move 4: O at (1, 1) gives Continue; the board becomes XX. / OO. / .... */
  lemma WinGameMove4()
    ensures Step(State([[Filled(X), Filled(X), Empty], [Filled(O), Empty, Empty], [Empty, Empty, Empty]], O), 1, 1)
      == Transition(Ok(Continue), State([[Filled(X), Filled(X), Empty], [Filled(O), Filled(O), Empty], [Empty, Empty, Empty]], X))
  {
    GridEquality(Mark([[Filled(X), Filled(X), Empty], [Filled(O), Empty, Empty], [Empty, Empty, Empty]], 1, 1, Filled(O)), [[Filled(X), Filled(X), Empty], [Filled(O), Filled(O), Empty], [Empty, Empty, Empty]]);
  }

  /** Move 5: X at (0, 2) gives PlayerWins(X); the board becomes XXX / OO. / .... */
  lemma WinGameMove5()
    ensures Step(State([[Filled(X), Filled(X), Empty], [Filled(O), Filled(O), Empty], [Empty, Empty, Empty]], X), 0, 2)
      == Transition(Ok(PlayerWins(X)), State([[Filled(X), Filled(X), Filled(X)], [Filled(O), Filled(O), Empty], [Empty, Empty, Empty]], X))
  {
    GridEquality(Mark([[Filled(X), Filled(X), Empty], [Filled(O), Filled(O), Empty], [Empty, Empty, Empty]], 0, 2, Filled(X)), [[Filled(X), Filled(X), Filled(X)], [Filled(O), Filled(O), Empty], [Empty, Empty, Empty]]);
  }

  // Nine alternating moves without a completed line, one lemma per move:
  // X(0,0), O(0,1), X(0,2), O(1,1), X(1,0), O(2,0), X(1,2), O(2,2), X(2,1).
  // Move 1 is the same as in the game above (WinGameMove1). The first eight
  // moves continue; the ninth fills the board for a draw,
  // and the turn stays with X. The final board is
  //   X O X
  //   X O X
  //   O X O

  /** Move 2: O at (0, 1) gives Continue; the board becomes XO. / ... / .... */
  lemma DrawGameMove2()
    ensures Step(State([[Filled(X), Empty, Empty], [Empty, Empty, Empty], [Empty, Empty, Empty]], O), 0, 1)
      == Transition(Ok(Continue), State([[Filled(X), Filled(O), Empty], [Empty, Empty, Empty], [Empty, Empty, Empty]], X))
  {
    GridEquality(Mark([[Filled(X), Empty, Empty], [Empty, Empty, Empty], [Empty, Empty, Empty]], 0, 1, Filled(O)), [[Filled(X), Filled(O), Empty], [Empty, Empty, Empty], [Empty, Empty, Empty]]);
  }

  /** Move 3: X at (0, 2) gives Continue; the board becomes XOX / ... / .... */
  lemma DrawGameMove3()
    ensures Step(State([[Filled(X), Filled(O), Empty], [Empty, Empty, Empty], [Empty, Empty, Empty]], X), 0, 2)
      == Transition(Ok(Continue), State([[Filled(X), Filled(O), Filled(X)], [Empty, Empty, Empty], [Empty, Empty, Empty]], O))
  {
    GridEquality(Mark([[Filled(X), Filled(O), Empty], [Empty, Empty, Empty], [Empty, Empty, Empty]], 0, 2, Filled(X)), [[Filled(X), Filled(O), Filled(X)], [Empty, Empty, Empty], [Empty, Empty, Empty]]);
  }

  /** Move 4: O at (1, 1) gives Continue; the board becomes XOX / .O. / .... */
  lemma DrawGameMove4()
    ensures Step(State([[Filled(X), Filled(O), Filled(X)], [Empty, Empty, Empty], [Empty, Empty, Empty]], O), 1, 1)
      == Transition(Ok(Continue), State([[Filled(X), Filled(O), Filled(X)], [Empty, Filled(O), Empty], [Empty, Empty, Empty]], X))
  {
    GridEquality(Mark([[Filled(X), Filled(O), Filled(X)], [Empty, Empty, Empty], [Empty, Empty, Empty]], 1, 1, Filled(O)), [[Filled(X), Filled(O), Filled(X)], [Empty, Filled(O), Empty], [Empty, Empty, Empty]]);
  }

  /** Move 5: X at (1, 0) gives Continue; the board becomes XOX / XO. / .... */
  lemma DrawGameMove5()
    ensures Step(State([[Filled(X), Filled(O), Filled(X)], [Empty, Filled(O), Empty], [Empty, Empty, Empty]], X), 1, 0)
      == Transition(Ok(Continue), State([[Filled(X), Filled(O), Filled(X)], [Filled(X), Filled(O), Empty], [Empty, Empty, Empty]], O))
  {
    GridEquality(Mark([[Filled(X), Filled(O), Filled(X)], [Empty, Filled(O), Empty], [Empty, Empty, Empty]], 1, 0, Filled(X)), [[Filled(X), Filled(O), Filled(X)], [Filled(X), Filled(O), Empty], [Empty, Empty, Empty]]);
  }

  /** Move 6: O at (2, 0) gives Continue; the board becomes XOX / XO. / O... */
  lemma DrawGameMove6()
    ensures Step(State([[Filled(X), Filled(O), Filled(X)], [Filled(X), Filled(O), Empty], [Empty, Empty, Empty]], O), 2, 0)
      == Transition(Ok(Continue), State([[Filled(X), Filled(O), Filled(X)], [Filled(X), Filled(O), Empty], [Filled(O), Empty, Empty]], X))
  {
    GridEquality(Mark([[Filled(X), Filled(O), Filled(X)], [Filled(X), Filled(O), Empty], [Empty, Empty, Empty]], 2, 0, Filled(O)), [[Filled(X), Filled(O), Filled(X)], [Filled(X), Filled(O), Empty], [Filled(O), Empty, Empty]]);
  }

  /** Move 7: X at (1, 2) gives Continue; the board becomes XOX / XOX / O... */
  lemma DrawGameMove7()
    ensures Step(State([[Filled(X), Filled(O), Filled(X)], [Filled(X), Filled(O), Empty], [Filled(O), Empty, Empty]], X), 1, 2)
      == Transition(Ok(Continue), State([[Filled(X), Filled(O), Filled(X)], [Filled(X), Filled(O), Filled(X)], [Filled(O), Empty, Empty]], O))
  {
    GridEquality(Mark([[Filled(X), Filled(O), Filled(X)], [Filled(X), Filled(O), Empty], [Filled(O), Empty, Empty]], 1, 2, Filled(X)), [[Filled(X), Filled(O), Filled(X)], [Filled(X), Filled(O), Filled(X)], [Filled(O), Empty, Empty]]);
  }

  /** Move 8: O at (2, 2) gives Continue; the board becomes XOX / XOX / O.O. */
  lemma DrawGameMove8()
    ensures Step(State([[Filled(X), Filled(O), Filled(X)], [Filled(X), Filled(O), Filled(X)], [Filled(O), Empty, Empty]], O), 2, 2)
      == Transition(Ok(Continue), State([[Filled(X), Filled(O), Filled(X)], [Filled(X), Filled(O), Filled(X)], [Filled(O), Empty, Filled(O)]], X))
  {
    GridEquality(Mark([[Filled(X), Filled(O), Filled(X)], [Filled(X), Filled(O), Filled(X)], [Filled(O), Empty, Empty]], 2, 2, Filled(O)), [[Filled(X), Filled(O), Filled(X)], [Filled(X), Filled(O), Filled(X)], [Filled(O), Empty, Filled(O)]]);
  }

  /** Move 9: X at (2, 1) gives Draw; the board becomes XOX / XOX / OXO. */
  lemma DrawGameMove9()
    ensures Step(State([[Filled(X), Filled(O), Filled(X)], [Filled(X), Filled(O), Filled(X)], [Filled(O), Empty, Filled(O)]], X), 2, 1)
      == Transition(Ok(Draw), State([[Filled(X), Filled(O), Filled(X)], [Filled(X), Filled(O), Filled(X)], [Filled(O), Filled(X), Filled(O)]], X))
  {
    GridEquality(Mark([[Filled(X), Filled(O), Filled(X)], [Filled(X), Filled(O), Filled(X)], [Filled(O), Empty, Filled(O)]], 2, 1, Filled(X)), [[Filled(X), Filled(O), Filled(X)], [Filled(X), Filled(O), Filled(X)], [Filled(O), Filled(X), Filled(O)]]);
  }

  /** X opens in the corner and O tries the same cell: refused, and X's mark
      and O's turn stay as they were. */
  lemma InvalidMoveScenario()
    ensures
      var t1 := Step(NewGame(), 0, 0);
      var t2 := Step(t1.after, 0, 0);
      && t1 == Transition(Ok(Continue), State([[Filled(X), Empty, Empty], [Empty, Empty, Empty], [Empty, Empty, Empty]], O))
      && t2 == Transition(Err(InvalidMove), t1.after)
  {
    GridEquality(NewGame().cells, [[Empty, Empty, Empty], [Empty, Empty, Empty], [Empty, Empty, Empty]]);
    GridEquality(Mark(NewGame().cells, 0, 0, Filled(X)), [[Filled(X), Empty, Empty], [Empty, Empty, Empty], [Empty, Empty, Empty]]);
  }

  // ---------------------------------------------------------------------------
  // The game, updated in place
  // ---------------------------------------------------------------------------

  class Game {
    /** The 3x3 board; the array is never replaced, only its cells change. */
    const board: array2<BoardValue>
    /** The player whose move is accepted next. */
    var currentPlayer: Player

    ghost predicate Valid() {
      board.Length0 == 3 && board.Length1 == 3
    }

    /** The board's current contents as a value. */
    function Cells(): (g: Grid)
      requires Valid()
      reads board
      ensures forall r, c | 0 <= r < 3 && 0 <= c < 3 :: g[r][c] == board[r, c]
    {
      [
        [board[0, 0], board[0, 1], board[0, 2]],
        [board[1, 0], board[1, 1], board[1, 2]],
        [board[2, 0], board[2, 1], board[2, 2]]
      ]
    }

    /** The game as a value. */
    function Snapshot(): (s: State)
      requires Valid()
      reads this, board
    {
      State(Cells(), currentPlayer)
    }

    /** A new game: an empty board and the first player to move. */
    constructor ()
      ensures Valid() && fresh(board)
      ensures Snapshot() == NewGame()
    {
      board := new BoardValue[3, 3]((r, c) => Empty);
      currentPlayer := FirstPlayer;
    }

    /** Rescans the eight lines in table order, returning at the first one that
        is filled by one player, then checks for a full board. */
    method GetGameStatus() returns (status: GameStatus)
      requires Valid()
      ensures status == StatusOf(Cells())
      ensures status.PlayerWins? ==> Won(Cells(), status.winner)
      ensures status == Draw <==> NoWin(Cells()) && Full(Cells())
      ensures status == Continue <==> NoWin(Cells()) && !Full(Cells())
    {
      var g := Cells();
      StatusWinIffWon(g);
      StatusDrawIff(g);
      StatusContinueIff(g);
      var slices := WinnableSlices(g);
      var k := 0;
      while k < |slices|
        invariant 0 <= k <= |slices|
        invariant FirstWin(slices, k) == FirstWin(slices, 0)
      {
        var slice := slices[k];
        if slice[0] != Empty && slice[0] == slice[1] && slice[1] == slice[2] {
          return PlayerWins(PlayerOf(slice[0]));
        }
        k := k + 1;
      }
      if Empty !in AllCells(g) {
        return Draw;
      }
      return Continue;
    }

    /** Places the current player's mark at (row, column). An occupied cell is
        refused and nothing changes; otherwise the status of the new board is
        returned and the turn passes only if play continues. */
    method Play(row: nat, column: nat) returns (result: Result<GameStatus, PlayError>)
      requires Valid()
      requires row < 3 && column < 3
      modifies this, board
      ensures Valid()
      ensures result == Step(old(Snapshot()), row, column).result
      ensures Snapshot() == Step(old(Snapshot()), row, column).after
    {
      if board[row, column] != Empty {
        return Err(InvalidMove);
      }
      ghost var before := Cells();
      board[row, column] := Filled(currentPlayer);
      GridEquality(Cells(), Mark(before, row, column, Filled(currentPlayer)));
      var status := GetGameStatus();
      if status == Continue {
        currentPlayer := Other(currentPlayer);
      }
      return Ok(status);
    }
  }

  /** A move repeated on an occupied cell is refused both times and changes nothing. */
  method RepeatedInvalidMove(game: Game, row: nat, column: nat)
    returns (first: Result<GameStatus, PlayError>, second: Result<GameStatus, PlayError>)
    requires game.Valid()
    requires row < 3 && column < 3
    requires game.Cells()[row][column] != Empty
    modifies game, game.board
    ensures first == Err(InvalidMove) && second == Err(InvalidMove)
    ensures game.Snapshot() == old(game.Snapshot())
  {
    first := game.Play(row, column);
    second := game.Play(row, column);
  }
}
