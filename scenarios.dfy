/** Complete games played through the state machine, with the outcome each one must show. */
module Scenarios {
  import opened Grid
  import opened WinDetection
  import opened BoardRules
  import opened History

  /** A click on a board with no matching triple and an empty square plays the mover's mark there. */
  lemma Accept(s: GameState, i: Index, next: Board)
    requires Valid(s)
    requires forall k :: 0 <= k < |Lines| ==> !Matches(CurrentSquares(s), Lines[k])
    requires CurrentSquares(s)[i] == Empty
    requires next == CurrentSquares(s)[i := PlayerMark(XIsNext(s))]
    ensures Click(s, i) == Play(s, next)
  {
    assert !HasLine(CurrentSquares(s));
    ClickSpec(CurrentSquares(s), XIsNext(s), i);
  }

  /** Boards of the left-column game: X on 0, O on 1, X on 3, O on 4, X on 6. */
  const A1: Board := [X, Empty, Empty, Empty, Empty, Empty, Empty, Empty, Empty]
  const A2: Board := [X, O, Empty, Empty, Empty, Empty, Empty, Empty, Empty]
  const A3: Board := [X, O, Empty, X, Empty, Empty, Empty, Empty, Empty]
  const A4: Board := [X, O, Empty, X, O, Empty, Empty, Empty, Empty]
  const A5: Board := [X, O, Empty, X, O, Empty, X, Empty, Empty]

  /** The first three moves of the left-column game. */
  lemma ThreeMoves()
    ensures Click(Click(Click(Init(), 0), 1), 3) == GameState([EmptyBoard, A1, A2, A3], 3, true)
  {
    EmptyBoardNoWinner();
    Accept(Init(), 0, A1);
    var s1 := GameState([EmptyBoard, A1], 1, true);
    assert Play(Init(), A1) == s1;
    Accept(s1, 1, A2);
    var s2 := GameState([EmptyBoard, A1, A2], 2, true);
    assert Play(s1, A2) == s2;
    Accept(s2, 3, A3);
    assert Play(s2, A3) == GameState([EmptyBoard, A1, A2, A3], 3, true);
  }

  /** Move 4: O on square 4. */
  lemma FourthMove()
    ensures Click(GameState([EmptyBoard, A1, A2, A3], 3, true), 4)
      == GameState([EmptyBoard, A1, A2, A3, A4], 4, true)
  {
    var s3 := GameState([EmptyBoard, A1, A2, A3], 3, true);
    Accept(s3, 4, A4);
    assert Play(s3, A4) == GameState([EmptyBoard, A1, A2, A3, A4], 4, true);
  }

  /** Move 5: X on square 6. */
  lemma FifthMove()
    ensures Click(GameState([EmptyBoard, A1, A2, A3, A4], 4, true), 6)
      == GameState([EmptyBoard, A1, A2, A3, A4, A5], 5, true)
  {
    var s4 := GameState([EmptyBoard, A1, A2, A3, A4], 4, true);
    Accept(s4, 6, A5);
    assert Play(s4, A5) == GameState([EmptyBoard, A1, A2, A3, A4, A5], 5, true);
  }

  /** The five moves of the left-column game. */
  lemma FiveMoves()
    ensures Click(Click(Click(Click(Click(Init(), 0), 1), 3), 4), 6)
      == GameState([EmptyBoard, A1, A2, A3, A4, A5], 5, true)
  {
    ThreeMoves();
    FourthMove();
    FifthMove();
  }

  /** The left column is the first matching triple of the final board. */
  lemma LeftColumnReported(xIsNext: bool)
    ensures Winner(A5) == WinResult(X, [0, 3, 6])
    ensures Status(A5, xIsNext) == "Winner: X"
  {
    assert FirstFrom(A5, 0, 3);
    WinnerIsFirstMatch(A5, 3);
  }

  /** X completes the left column and wins; the triple reported is 0, 3, 6. */
  lemma LeftColumnWin()
    ensures var s := Click(Click(Click(Click(Click(Init(), 0), 1), 3), 4), 6);
      && CurrentSquares(s) == A5
      && View(s).status == "Winner: X"
      && View(s).winningLine == [0, 3, 6]
      && |s.history| == 6
  {
    FiveMoves();
    LeftColumnReported(false);
  }

  /** Board after going back to move 1 and playing O on square 4. */
  const C2: Board := [X, Empty, Empty, Empty, O, Empty, Empty, Empty, Empty]

  /** From move 1 of the four-snapshot history, O plays square 4. */
  lemma PlayAfterJump()
    ensures Click(GameState([EmptyBoard, A1, A2, A3], 1, true), 4) == GameState([EmptyBoard, A1, C2], 2, true)
  {
    var s := GameState([EmptyBoard, A1, A2, A3], 1, true);
    assert CurrentSquares(s) == A1;
    Accept(s, 4, C2);
    assert [EmptyBoard, A1, A2, A3][..2] == [EmptyBoard, A1];
  }

  /** Going back to move 1 and playing square 4 discards the old move 2 and leaves three snapshots. */
  lemma BranchFromMoveOne()
    ensures var s := Click(JumpTo(Click(Click(Click(Init(), 0), 1), 3), 1), 4);
      && s.history == [EmptyBoard, A1, C2]
      && s.currentMove == 2
  {
    ThreeMoves();
    assert JumpTo(GameState([EmptyBoard, A1, A2, A3], 3, true), 1) == GameState([EmptyBoard, A1, A2, A3], 1, true);
    PlayAfterJump();
  }

  /** An accepted click at the end of a history whose cursor is on its last snapshot appends one board. */
  lemma Append(h: seq<Board>, i: Index, next: Board)
    requires 1 <= |h| && h[0] == EmptyBoard
    requires forall k :: 0 <= k < |Lines| ==> !Matches(h[|h| - 1], Lines[k])
    requires h[|h| - 1][i] == Empty
    requires next == h[|h| - 1][i := PlayerMark((|h| - 1) % 2 == 0)]
    ensures Click(GameState(h, |h| - 1, true), i) == GameState(h + [next], |h|, true)
  {
    var s := GameState(h, |h| - 1, true);
    Accept(s, i, next);
    assert h[..|h|] == h;
  }

  /** Boards of the drawn game: clicks 0, 1, 2, 4, 3, 5, 7, 6, 8. */
  const B1: Board := [X, Empty, Empty, Empty, Empty, Empty, Empty, Empty, Empty]
  const B2: Board := [X, O, Empty, Empty, Empty, Empty, Empty, Empty, Empty]
  const B3: Board := [X, O, X, Empty, Empty, Empty, Empty, Empty, Empty]
  const B4: Board := [X, O, X, Empty, O, Empty, Empty, Empty, Empty]
  const B5: Board := [X, O, X, X, O, Empty, Empty, Empty, Empty]
  const B6: Board := [X, O, X, X, O, O, Empty, Empty, Empty]
  const B7: Board := [X, O, X, X, O, O, Empty, X, Empty]
  const B8: Board := [X, O, X, X, O, O, O, X, Empty]
  const B9: Board := [X, O, X, X, O, O, O, X, X]

  lemma DrawMove1()
    ensures Click(Init(), 0) == GameState([EmptyBoard, B1], 1, true)
  {
    EmptyBoardNoWinner();
    Append([EmptyBoard], 0, B1);
  }

  lemma DrawMove2()
    ensures Click(GameState([EmptyBoard, B1], 1, true), 1) == GameState([EmptyBoard, B1, B2], 2, true)
  {
    Append([EmptyBoard, B1], 1, B2);
  }

  lemma DrawMove3()
    ensures Click(GameState([EmptyBoard, B1, B2], 2, true), 2) == GameState([EmptyBoard, B1, B2, B3], 3, true)
  {
    Append([EmptyBoard, B1, B2], 2, B3);
  }

  lemma DrawMove4()
    ensures Click(GameState([EmptyBoard, B1, B2, B3], 3, true), 4)
      == GameState([EmptyBoard, B1, B2, B3, B4], 4, true)
  {
    Append([EmptyBoard, B1, B2, B3], 4, B4);
  }

  lemma DrawMove5()
    ensures Click(GameState([EmptyBoard, B1, B2, B3, B4], 4, true), 3)
      == GameState([EmptyBoard, B1, B2, B3, B4, B5], 5, true)
  {
    Append([EmptyBoard, B1, B2, B3, B4], 3, B5);
  }

  lemma DrawMove6()
    ensures Click(GameState([EmptyBoard, B1, B2, B3, B4, B5], 5, true), 5)
      == GameState([EmptyBoard, B1, B2, B3, B4, B5, B6], 6, true)
  {
    Append([EmptyBoard, B1, B2, B3, B4, B5], 5, B6);
  }

  lemma DrawMove7()
    ensures Click(GameState([EmptyBoard, B1, B2, B3, B4, B5, B6], 6, true), 7)
      == GameState([EmptyBoard, B1, B2, B3, B4, B5, B6, B7], 7, true)
  {
    Append([EmptyBoard, B1, B2, B3, B4, B5, B6], 7, B7);
  }

  lemma DrawMove8()
    ensures Click(GameState([EmptyBoard, B1, B2, B3, B4, B5, B6, B7], 7, true), 6)
      == GameState([EmptyBoard, B1, B2, B3, B4, B5, B6, B7, B8], 8, true)
  {
    Append([EmptyBoard, B1, B2, B3, B4, B5, B6, B7], 6, B8);
  }

  lemma DrawMove9()
    ensures Click(GameState([EmptyBoard, B1, B2, B3, B4, B5, B6, B7, B8], 8, true), 8)
      == GameState([EmptyBoard, B1, B2, B3, B4, B5, B6, B7, B8, B9], 9, true)
  {
    Append([EmptyBoard, B1, B2, B3, B4, B5, B6, B7, B8], 8, B9);
  }

  /** The first three clicks of the drawn game. */
  lemma DrawFirstThree()
    ensures Click(Click(Click(Init(), 0), 1), 2) == GameState([EmptyBoard, B1, B2, B3], 3, true)
  {
    DrawMove1();
    DrawMove2();
    DrawMove3();
  }

  /** The first six clicks of the drawn game. */
  lemma DrawFirstSix()
    ensures Click(Click(Click(Click(Click(Click(Init(), 0), 1), 2), 4), 3), 5)
      == GameState([EmptyBoard, B1, B2, B3, B4, B5, B6], 6, true)
  {
    DrawFirstThree();
    DrawMove4();
    DrawMove5();
    DrawMove6();
  }

  /** All nine clicks of the drawn game fill the board as `B9`. */
  lemma DrawAllNine()
    ensures Click(Click(Click(Click(Click(Click(Click(Click(Click(Init(), 0), 1), 2), 4), 3), 5), 7), 6), 8)
      == GameState([EmptyBoard, B1, B2, B3, B4, B5, B6, B7, B8, B9], 9, true)
  {
    DrawFirstSix();
    DrawMove7();
    DrawMove8();
    DrawMove9();
  }

  /** With no matching triple on a full board, the status is a draw and nothing is highlighted. */
  lemma FullBoardDraw(xIsNext: bool)
    ensures Status(B9, xIsNext) == "Draw: No one wins!"
    ensures Winner(B9).line == []
  {
    assert forall k :: 0 <= k < |Lines| ==> !Matches(B9, Lines[k]);
  }

  /** Clicks 0, 1, 2, 4, 3, 5, 7, 6, 8 from the start end in a draw with no winning line. */
  lemma DrawnGame()
    ensures var s := Click(Click(Click(Click(Click(Click(Click(Click(Click(Init(), 0), 1), 2), 4), 3), 5), 7), 6), 8);
      && CurrentSquares(s) == B9
      && View(s).status == "Draw: No one wins!"
      && View(s).winningLine == []
      && |s.history| == 10
  {
    DrawAllNine();
    FullBoardDraw(false);
  }
}
