/**
 * Win detection: `calculateWinner` scans the eight winning triples in a
 * fixed order and reports the first one whose three squares hold the same mark.
 */
module WinDetection {
  import opened Grid

  /** A winning triple of square positions. */
  datatype Line = Line(a: Index, b: Index, c: Index)

  /** The triples in the order the scan visits them: rows, columns, diagonals. */
  const Lines: seq<Line> := [
    Line(0, 1, 2),
    Line(3, 4, 5),
    Line(6, 7, 8),
    Line(0, 3, 6),
    Line(1, 4, 7),
    Line(2, 5, 8),
    Line(0, 4, 8),
    Line(2, 4, 6)
  ]

  /** The scan's result: the winning mark (Empty for none) and the triple's squares. */
  datatype WinResult = WinResult(winner: Cell, line: seq<Index>)

  /** `{ winner: null, line: [] }` */
  const NoWinner: WinResult := WinResult(Empty, [])

  /** The three squares of `l` hold the same mark. */
  predicate Matches(squares: Board, l: Line)
  {
    squares[l.a] != Empty && squares[l.a] == squares[l.b] && squares[l.a] == squares[l.c]
  }

  /** Some triple of the table matches. */
  ghost predicate HasLine(squares: Board)
  {
    exists k :: 0 <= k < |Lines| && Matches(squares, Lines[k])
  }

  /** `Lines[k]` matches and no triple from position `i` up to `k` does. */
  ghost predicate FirstFrom(squares: Board, i: nat, k: nat)
  {
    && i <= k < |Lines|
    && Matches(squares, Lines[k])
    && forall j :: i <= j < k ==> !Matches(squares, Lines[j])
  }

  /** What the scan returns when it stops at `l`. */
  function Report(squares: Board, l: Line): WinResult
  {
    WinResult(squares[l.a], [l.a, l.b, l.c])
  }

  /** The scan of the table from position `i` on. */
  function ScanFrom(squares: Board, i: nat): (r: WinResult)
    requires i <= |Lines|
    decreases |Lines| - i
    ensures (forall k :: i <= k < |Lines| ==> !Matches(squares, Lines[k])) ==> r == NoWinner
    ensures forall k: nat :: FirstFrom(squares, i, k) ==> r == Report(squares, Lines[k])
  {
    if i == |Lines| then NoWinner
    else if Matches(squares, Lines[i]) then Report(squares, Lines[i])
    else ScanFrom(squares, i + 1)
  }

  /** `calculateWinner(squares)` as a value. */
  function Winner(squares: Board): WinResult
  {
    ScanFrom(squares, 0)
  }

  /** The source's loop: visit the triples in order and return at the first match. */
  method CalculateWinner(squares: Board) returns (r: WinResult)
    ensures r == Winner(squares)
  {
    for i := 0 to |Lines|
      invariant ScanFrom(squares, i) == Winner(squares)
    {
      var line := Lines[i];
      if squares[line.a] != Empty && squares[line.a] == squares[line.b] && squares[line.a] == squares[line.c] {
        return WinResult(squares[line.a], [line.a, line.b, line.c]);
      }
    }
    return NoWinner;
  }

  /** A match at `k` means there is a first match at or before `k`; `f` is that one. */
  lemma {:induction false} FirstMatch(squares: Board, i: nat, k: nat) returns (f: nat)
    requires i <= k < |Lines| && Matches(squares, Lines[k])
    ensures f <= k && FirstFrom(squares, i, f)
    decreases k
  {
    if j :| i <= j < k && Matches(squares, Lines[j]) {
      f := FirstMatch(squares, i, j);
    } else {
      f := k;
    }
  }

  /**
   * The whole contract of `calculateWinner`: the result is "no winner" (null
   * mark, empty line) exactly when no triple matches; otherwise it is the first
   * matching triple in table order, and its mark is the mark on all three squares.
   */
  lemma WinnerSpec(squares: Board)
    ensures Winner(squares).winner == Empty <==> !HasLine(squares)
    ensures !HasLine(squares) ==> Winner(squares) == NoWinner
    ensures HasLine(squares) ==> exists k: nat :: FirstFrom(squares, 0, k) && Winner(squares) == Report(squares, Lines[k])
  {
    if HasLine(squares) {
      var k :| 0 <= k < |Lines| && Matches(squares, Lines[k]);
      var f := FirstMatch(squares, 0, k);
      assert Winner(squares) == Report(squares, Lines[f]);
    }
  }

  /** The fields of a reported result: one of the eight triples, all three squares holding the winner. */
  lemma WinnerLine(squares: Board)
    requires Winner(squares).winner != Empty
    ensures exists k :: (0 <= k < |Lines|
      && Winner(squares).line == [Lines[k].a, Lines[k].b, Lines[k].c]
      && Winner(squares).winner == squares[Lines[k].a]
      && Winner(squares).winner == squares[Lines[k].b]
      && Winner(squares).winner == squares[Lines[k].c])
  {
    WinnerSpec(squares);
  }

  /** The first match decides: a board with a match at `k` and none before reports `Lines[k]`. */
  lemma WinnerIsFirstMatch(squares: Board, k: nat)
    requires FirstFrom(squares, 0, k)
    ensures Winner(squares) == Report(squares, Lines[k])
  {
  }

  /** The starting board has no winner. */
  lemma EmptyBoardNoWinner()
    ensures !HasLine(EmptyBoard) && Winner(EmptyBoard) == NoWinner
  {
    EmptyBoardHasNoMarks();
    forall k | 0 <= k < |Lines|
      ensures !Matches(EmptyBoard, Lines[k])
    {
      assert EmptyBoard[Lines[k].a] == Empty;
    }
  }
}
