/**
 * The `Game` component's state as a value: the list of board snapshots, the
 * cursor into it and the sort flag, with the transitions the component's
 * handlers perform and the invariants those transitions keep.
 */
module History {
  import opened Grid
  import opened WinDetection
  import opened BoardRules
  import opened MoveList

  datatype GameState = GameState(history: seq<Board>, currentMove: nat, isAscending: bool)

  /** The history is never empty, the cursor points into it, and it starts from the empty board. */
  predicate Valid(s: GameState)
  {
    1 <= |s.history| && s.currentMove < |s.history| && s.history[0] == EmptyBoard
  }

  /** The state the component starts in. */
  function Init(): (s: GameState)
    ensures Valid(s)
  {
    GameState([EmptyBoard], 0, true)
  }

  /** `currentMove % 2 === 0`: X moves on even cursors. */
  function XIsNext(s: GameState): bool
  {
    s.currentMove % 2 == 0
  }

  /** `history[currentMove]`, the board on screen. */
  function CurrentSquares(s: GameState): Board
    requires Valid(s)
  {
    s.history[s.currentMove]
  }

  /** `handlePlay(nextSquares)`: keep the history up to the cursor, append, move the cursor to the end. */
  function Play(s: GameState, nextSquares: Board): (r: GameState)
    requires Valid(s)
    ensures Valid(r)
  {
    var nextHistory := s.history[..s.currentMove + 1] + [nextSquares];
    GameState(nextHistory, |nextHistory| - 1, s.isAscending)
  }

  /** A click on square `i` of the board on screen: ignored, or played. */
  function Click(s: GameState, i: Index): (r: GameState)
    requires Valid(s)
    ensures Valid(r)
  {
    match ClickResult(CurrentSquares(s), XIsNext(s), i)
    case None => s
    case Some(nextSquares) => Play(s, nextSquares)
  }

  /** `jumpTo(nextMove)`: only the cursor moves. */
  function JumpTo(s: GameState, nextMove: nat): (r: GameState)
    requires Valid(s) && nextMove < |s.history|
    ensures Valid(r)
  {
    s.(currentMove := nextMove)
  }

  /** `handleSortToggle()`: only the order flag flips. */
  function ToggleSort(s: GameState): GameState
  {
    s.(isAscending := !s.isAscending)
  }

  /** What the component renders: the board, the status, the winning squares and the move list. */
  datatype GameView = GameView(squares: Board, status: string, winningLine: seq<Index>, moves: seq<MoveEntry>)

  function View(s: GameState): GameView
    requires Valid(s)
  {
    var squares := CurrentSquares(s);
    GameView(squares, Status(squares, XIsNext(s)), Winner(squares).line, Moves(|s.history|, s.isAscending))
  }

  // ---------------------------------------------------------------------------
  // Clicks

  /** A click changes nothing exactly when the board on screen is won or the square is taken. */
  lemma ClickIgnored(s: GameState, i: Index)
    requires Valid(s)
    ensures Click(s, i) == s <==> HasLine(CurrentSquares(s)) || CurrentSquares(s)[i] != Empty
  {
    ClickSpec(CurrentSquares(s), XIsNext(s), i);
  }

  /**
   * An accepted click keeps the history up to the cursor, drops what came
   * after it, appends one board and moves the cursor onto it; that board is
   * the one on screen with the mover's mark written at `i` and nothing else changed.
   */
  lemma ClickAccepted(s: GameState, i: Index)
    requires Valid(s)
    requires !HasLine(CurrentSquares(s)) && CurrentSquares(s)[i] == Empty
    ensures var r := Click(s, i);
      && |r.history| == s.currentMove + 2
      && r.currentMove == s.currentMove + 1
      && r.history[..s.currentMove + 1] == s.history[..s.currentMove + 1]
      && r.isAscending == s.isAscending
      && CurrentSquares(r)[i] == (if s.currentMove % 2 == 0 then X else O)
      && (forall j :: 0 <= j < 9 && j != i ==> CurrentSquares(r)[j] == CurrentSquares(s)[j])
  {
    ClickSpec(CurrentSquares(s), XIsNext(s), i);
  }

  /** Once the board on screen is won or full, every click is ignored. */
  lemma FinishedIgnoresClicks(s: GameState)
    requires Valid(s)
    requires HasLine(CurrentSquares(s)) || Empty !in CurrentSquares(s)
    ensures forall i: Index :: Click(s, i) == s
  {
    forall i: Index
      ensures Click(s, i) == s
    {
      ClickIgnored(s, i);
    }
  }

  /**
   * Jumping back to move `m` and then clicking an empty square of that un-won
   * board leaves `m + 2` snapshots, the first `m + 1` untouched.
   */
  lemma BranchDiscardsFuture(s: GameState, m: nat, i: Index)
    requires Valid(s) && m < |s.history|
    requires !HasLine(s.history[m]) && s.history[m][i] == Empty
    ensures |Click(JumpTo(s, m), i).history| == m + 2
    ensures Click(JumpTo(s, m), i).history[..m + 1] == s.history[..m + 1]
  {
    ClickAccepted(JumpTo(s, m), i);
  }

  // ---------------------------------------------------------------------------
  // Jumping and sorting

  /** A jump keeps every snapshot, so jumping back to where one was restores the state. */
  lemma JumpIsReversible(s: GameState, m: nat)
    requires Valid(s) && m < |s.history|
    ensures JumpTo(s, m).history == s.history && JumpTo(s, m).isAscending == s.isAscending
    ensures CurrentSquares(JumpTo(s, m)) == s.history[m]
    ensures JumpTo(JumpTo(s, m), s.currentMove) == s
  {
  }

  /**
   * Toggling the order twice restores the state; toggling once leaves the
   * board, status and winning squares alone and reverses the move list.
   */
  lemma ToggleSortSpec(s: GameState)
    requires Valid(s)
    ensures ToggleSort(ToggleSort(s)) == s
    ensures View(ToggleSort(s)).squares == View(s).squares
    ensures View(ToggleSort(s)).status == View(s).status
    ensures View(ToggleSort(s)).winningLine == View(s).winningLine
    ensures View(ToggleSort(s)).moves == Reverse(View(s).moves)
  {
    MovesFlip(|s.history|, s.isAscending);
  }

  // ---------------------------------------------------------------------------
  // Legal histories: the ones the handlers can build from the start

  /** `q` is `p` with one empty square given mark `m`. */
  ghost predicate Successor(p: Board, q: Board, m: Cell)
  {
    exists i: Index :: p[i] == Empty && q == p[i := m]
  }

  /** Move `k + 1` was made on an un-won board by the player whose turn it was at cursor `k`. */
  ghost predicate MoveAt(h: seq<Board>, k: nat)
    requires k + 1 < |h|
  {
    !HasLine(h[k]) && Successor(h[k], h[k + 1], PlayerMark(k % 2 == 0))
  }

  ghost predicate Legal(h: seq<Board>)
  {
    && 1 <= |h|
    && h[0] == EmptyBoard
    && forall k: nat :: k + 1 < |h| ==> MoveAt(h, k)
  }

  lemma InitLegal()
    ensures Legal(Init().history)
  {
  }

  /** Every prefix of a legal history is legal. */
  lemma LegalPrefix(h: seq<Board>, n: nat)
    requires Legal(h) && 1 <= n <= |h|
    ensures Legal(h[..n])
  {
    forall k: nat | k + 1 < n
      ensures MoveAt(h[..n], k)
    {
      assert MoveAt(h, k);
      assert h[..n][k] == h[k] && h[..n][k + 1] == h[k + 1];
    }
  }

  /** Clicks keep the history legal. */
  lemma ClickKeepsLegal(s: GameState, i: Index)
    requires Valid(s) && Legal(s.history)
    ensures Legal(Click(s, i).history)
  {
    var squares := CurrentSquares(s);
    ClickSpec(squares, XIsNext(s), i);
    if !HasLine(squares) && squares[i] == Empty {
      var c := s.currentMove;
      var h := s.history[..c + 1];
      var next := squares[i := PlayerMark(XIsNext(s))];
      var h' := Click(s, i).history;
      assert h' == h + [next];
      LegalPrefix(s.history, c + 1);
      forall k: nat | k + 1 < |h'|
        ensures MoveAt(h', k)
      {
        if k + 1 < |h| {
          assert MoveAt(h, k);
          assert h'[k] == h[k] && h'[k + 1] == h[k + 1];
        } else {
          assert h'[k] == squares && h'[k + 1] == next;
          assert Successor(squares, next, PlayerMark(k % 2 == 0));
        }
      }
    }
  }

  /** In a legal history, snapshot `k` holds `(k + 1) / 2` X marks and `k / 2` O marks. */
  lemma {:induction false} MarkCounts(h: seq<Board>, k: nat)
    requires Legal(h) && k < |h|
    ensures CountOf(h[k], X) == (k + 1) / 2 && CountOf(h[k], O) == k / 2
  {
    if k == 0 {
      EmptyBoardHasNoMarks();
    } else {
      MarkCounts(h, k - 1);
      assert MoveAt(h, k - 1);
      var i: Index :| h[k - 1][i] == Empty && h[k] == h[k - 1][i := PlayerMark((k - 1) % 2 == 0)];
      CountOfUpdate(h[k - 1], i, PlayerMark((k - 1) % 2 == 0), X);
      CountOfUpdate(h[k - 1], i, PlayerMark((k - 1) % 2 == 0), O);
    }
  }

  /** Snapshot `k` of a legal history has exactly `k` marked squares, so there are at most ten snapshots. */
  lemma MovesMade(h: seq<Board>, k: nat)
    requires Legal(h) && k < |h|
    ensures Marks(h[k]) == k
    ensures |h| <= 10
  {
    MarkCounts(h, k);
    MarkCounts(h, |h| - 1);
    CountsPartition(h[|h| - 1]);
  }

  /** A full board in a legal history is the ninth move. */
  lemma DrawOnlyAtMoveNine(h: seq<Board>, k: nat)
    requires Legal(h) && k < |h|
    ensures Empty !in h[k] <==> k == 9
  {
    MovesMade(h, k);
    FullIffNineMarks(h[k]);
  }

  /** Writing mark `m` cannot complete a triple of the other mark. */
  lemma NewLineIsMovers(p: Board, i: Index, m: Cell)
    requires !HasLine(p) && p[i] == Empty && m != Empty
    ensures HasLine(p[i := m]) ==> Winner(p[i := m]).winner == m
  {
    var q := p[i := m];
    if HasLine(q) {
      WinnerSpec(q);
      var k: nat :| FirstFrom(q, 0, k) && Winner(q) == Report(q, Lines[k]);
    }
  }

  /** In a legal history only the last snapshot can be won: clicks on a won board are ignored. */
  lemma OnlyLastIsWon(h: seq<Board>, k: nat)
    requires Legal(h) && k < |h|
    requires HasLine(h[k])
    ensures k == |h| - 1
  {
    assert k + 1 < |h| ==> MoveAt(h, k);
  }

  /** A won snapshot of a legal history was won by the player who made its last move. */
  lemma WinnerIsLastMover(h: seq<Board>, k: nat)
    requires Legal(h) && k < |h|
    requires HasLine(h[k])
    ensures k >= 1 && Winner(h[k]).winner == PlayerMark((k - 1) % 2 == 0)
  {
    if k == 0 {
      EmptyBoardNoWinner();
    } else {
      assert MoveAt(h, k - 1);
      var i: Index :| h[k - 1][i] == Empty && h[k] == h[k - 1][i := PlayerMark((k - 1) % 2 == 0)];
      NewLineIsMovers(h[k - 1], i, PlayerMark((k - 1) % 2 == 0));
    }
  }
}
