/**
 * The rules of the `Board` component: which mark the next click writes, when
 * a click is ignored, the board a click produces, and the status line.
 */
module BoardRules {
  import opened Grid
  import opened WinDetection

  datatype Option<+T> = None | Some(value: T)

  /** The mark of the player to move: `xIsNext ? 'X' : 'O'`. */
  function PlayerMark(xIsNext: bool): (m: Cell)
    ensures m != Empty
  {
    if xIsNext then X else O
  }

  /**
   * `handleClick(i)` without the callback: `None` when the click is ignored,
   * otherwise the board handed to `onPlay`.
   */
  function ClickResult(squares: Board, xIsNext: bool, i: Index): Option<Board>
  {
    if Winner(squares).winner != Empty || squares[i] != Empty then None
    else Some(squares[i := PlayerMark(xIsNext)])
  }

  /**
   * A click is ignored exactly when some triple already matches or the square
   * is taken; otherwise the new board differs from the old one only at `i`,
   * where it holds the mover's mark, and has one mark more.
   */
  lemma ClickSpec(squares: Board, xIsNext: bool, i: Index)
    ensures ClickResult(squares, xIsNext, i).None? <==> HasLine(squares) || squares[i] != Empty
    ensures ClickResult(squares, xIsNext, i).Some? ==>
      var next := ClickResult(squares, xIsNext, i).value;
      && next[i] == PlayerMark(xIsNext)
      && (forall j :: 0 <= j < 9 && j != i ==> next[j] == squares[j])
      && Marks(next) == Marks(squares) + 1
  {
    WinnerSpec(squares);
    if !HasLine(squares) && squares[i] == Empty {
      CountOfUpdate(squares, i, PlayerMark(xIsNext), X);
      CountOfUpdate(squares, i, PlayerMark(xIsNext), O);
    }
  }

  /** The status line: the winner, else a draw on a full board, else the player to move. */
  function Status(squares: Board, xIsNext: bool): string
  {
    var winner := Winner(squares).winner;
    if winner != Empty then "Winner: " + Symbol(winner)
    else if Empty !in squares then "Draw: No one wins!"
    else "Next player: " + Symbol(PlayerMark(xIsNext))
  }

  /**
   * Status precedence stated against the triple table: a matching triple
   * shows its mark; with no match a full board is a draw; otherwise the
   * player to move is shown. The three forms are told apart by their prefix.
   */
  lemma StatusSpec(squares: Board, xIsNext: bool)
    ensures HasLine(squares) ==> exists k: nat :: (FirstFrom(squares, 0, k)
      && Status(squares, xIsNext) == "Winner: " + Symbol(squares[Lines[k].a]))
    ensures !HasLine(squares) && Empty !in squares ==> Status(squares, xIsNext) == "Draw: No one wins!"
    ensures !HasLine(squares) && Empty in squares ==>
      Status(squares, xIsNext) == "Next player: " + Symbol(PlayerMark(xIsNext))
    ensures HasLine(squares) <==> Status(squares, xIsNext)[..8] == "Winner: "
  {
    WinnerSpec(squares);
    if HasLine(squares) {
      var w := Winner(squares).winner;
      assert Status(squares, xIsNext) == "Winner: " + Symbol(w);
    } else if Empty !in squares {
      assert "Draw: No one wins!"[5] != "Winner: "[5];
    } else {
      assert ("Next player: " + Symbol(PlayerMark(xIsNext)))[0] != "Winner: "[0];
    }
  }
}
