/**
 * The `Game` component as an object: its three pieces of state are fields,
 * and each handler replaces them the way the component's state setters do.
 * Every method is tied to the matching transition of module History.
 */
module GameComponent {
  import opened Grid
  import opened WinDetection
  import opened BoardRules
  import opened MoveList
  import History

  class Game {
    var history: seq<Board>
    var currentMove: nat
    var isAscending: bool

    /** The fields as a value of the state machine. */
    function State(): History.GameState
      reads this
    {
      History.GameState(history, currentMove, isAscending)
    }

    ghost predicate Valid()
      reads this
    {
      History.Valid(State())
    }

    /** `useState([Array(9).fill(null)])`, `useState(0)`, `useState(true)`. */
    constructor ()
      ensures Valid() && State() == History.Init()
      ensures History.Legal(history)
    {
      history := [EmptyBoard];
      currentMove := 0;
      isAscending := true;
    }

    /** `handlePlay(nextSquares)`. */
    method HandlePlay(nextSquares: Board)
      requires Valid()
      modifies this
      ensures Valid() && State() == History.Play(old(State()), nextSquares)
    {
      var nextHistory := history[..currentMove + 1];
      nextHistory := nextHistory + [nextSquares];
      history := nextHistory;
      currentMove := |nextHistory| - 1;
    }

    /**
     * `Board.handleClick(i)` on the board on screen: ignore the click when
     * the board is won or the square taken, otherwise copy the board, write
     * the mover's mark and pass the copy to `handlePlay`.
     */
    method HandleClick(i: Index)
      requires Valid()
      modifies this
      ensures Valid() && State() == History.Click(old(State()), i)
      ensures History.Legal(old(history)) ==> History.Legal(history)
    {
      ghost var before := State();
      var squares := history[currentMove];
      var winnerInfo := CalculateWinner(squares);
      if winnerInfo.winner != Empty || squares[i] != Empty {
        return;
      }
      var nextSquares := new Cell[9](k requires 0 <= k < 9 => squares[k]);
      nextSquares[i] := if currentMove % 2 == 0 then X else O;
      assert nextSquares[..] == squares[i := PlayerMark(History.XIsNext(before))];
      HandlePlay(nextSquares[..]);
      if History.Legal(before.history) {
        History.ClickKeepsLegal(before, i);
      }
    }

    /** `jumpTo(nextMove)`: the caller passes an index of the rendered history. */
    method JumpTo(nextMove: nat)
      requires Valid() && nextMove < |history|
      modifies this`currentMove
      ensures Valid() && State() == History.JumpTo(old(State()), nextMove)
    {
      currentMove := nextMove;
    }

    /** `handleSortToggle()`. */
    method HandleSortToggle()
      requires Valid()
      modifies this`isAscending
      ensures Valid() && State() == History.ToggleSort(old(State()))
    {
      isAscending := !isAscending;
    }

    /**
     * One render pass: the board on screen, its status from the scan's
     * result, the winning squares to highlight, and the move list.
     */
    method Render() returns (view: History.GameView)
      requires Valid()
      ensures view == History.View(State())
    {
      var squares := history[currentMove];
      var xIsNext := currentMove % 2 == 0;
      var winnerInfo := CalculateWinner(squares);
      var status;
      if winnerInfo.winner != Empty {
        status := "Winner: " + Symbol(winnerInfo.winner);
      } else if Empty !in squares {
        status := "Draw: No one wins!";
      } else {
        status := "Next player: " + (if xIsNext then "X" else "O");
      }
      view := History.GameView(squares, status, winnerInfo.line, Moves(|history|, isAscending));
    }
  }
}
