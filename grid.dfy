/**
 * Cells and boards of the 3x3 game, and the counting facts about them
 * that the rest of the model relies on.
 */
module Grid {

  /** One square: empty (the `null` of the React state) or holding a mark. */
  datatype Cell = Empty | X | O

  /** A square's position in row-major order: row `i / 3`, column `i % 3`. */
  type Index = i: int | 0 <= i < 9

  /** A board snapshot: exactly nine cells. */
  type Board = b: seq<Cell> | |b| == 9
    witness [Empty, Empty, Empty, Empty, Empty, Empty, Empty, Empty, Empty]

  /** The starting board, `Array(9).fill(null)`. */
  const EmptyBoard: Board := [Empty, Empty, Empty, Empty, Empty, Empty, Empty, Empty, Empty]

  /** The text shown for a mark. */
  function Symbol(c: Cell): (s: string)
    requires c != Empty
    ensures |s| == 1
  {
    if c == X then "X" else "O"
  }

  /** How many cells of `s` hold `c`. */
  function CountOf(s: seq<Cell>, c: Cell): (n: nat)
    ensures n <= |s|
  {
    if s == [] then 0 else (if s[0] == c then 1 else 0) + CountOf(s[1..], c)
  }

  /** The number of marked (non-empty) squares of a board. */
  function Marks(b: Board): nat
  {
    CountOf(b, X) + CountOf(b, O)
  }

  /** Writing `v` at position `i` moves one cell from the count of `s[i]` to the count of `v`. */
  lemma {:induction false} CountOfUpdate(s: seq<Cell>, i: nat, v: Cell, c: Cell)
    requires i < |s|
    ensures CountOf(s[i := v], c)
            == CountOf(s, c) - (if s[i] == c then 1 else 0) + (if v == c then 1 else 0)
  {
    if i == 0 {
      assert s[i := v][1..] == s[1..];
    } else {
      assert s[i := v][1..] == s[1..][i - 1 := v];
      CountOfUpdate(s[1..], i - 1, v, c);
    }
  }

  /** A count is zero exactly when the cell value does not occur. */
  lemma {:induction false} CountOfZero(s: seq<Cell>, c: Cell)
    ensures CountOf(s, c) == 0 <==> c !in s
  {
    if s != [] {
      assert s == [s[0]] + s[1..];
      CountOfZero(s[1..], c);
    }
  }

  /** Every cell is empty, X or O, so the three counts add up to the length. */
  lemma {:induction false} CountsPartition(s: seq<Cell>)
    ensures CountOf(s, Empty) + CountOf(s, X) + CountOf(s, O) == |s|
  {
    if s != [] {
      CountsPartition(s[1..]);
    }
  }

  /** A board is full exactly when all nine squares are marked. */
  lemma FullIffNineMarks(b: Board)
    ensures Empty !in b <==> Marks(b) == 9
  {
    CountsPartition(b);
    CountOfZero(b, Empty);
  }

  /** The starting board holds no mark. */
  lemma EmptyBoardHasNoMarks()
    ensures forall j: Index :: EmptyBoard[j] == Empty
    ensures CountOf(EmptyBoard, X) == 0 && CountOf(EmptyBoard, O) == 0
  {
    CountOfZero(EmptyBoard, X);
    CountOfZero(EmptyBoard, O);
  }
}
