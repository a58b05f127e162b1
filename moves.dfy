/**
 * The move list of the `Game` component: one entry per history snapshot,
 * labelled by its move number, listed newest first when the order is descending.
 */
module MoveList {
  import opened Decimal

  /** One list item: the snapshot it jumps to and its button text. */
  datatype MoveEntry = MoveEntry(move: nat, description: string)

  /** The button text: the start for move 0, otherwise the move number. */
  function Description(move: nat): string
  {
    if move == 0 then "Go to game start" else "Go to move #" + NatToString(move)
  }

  /** Each label names one move only. */
  lemma DescriptionInjective(m: nat, n: nat)
    ensures Description(m) == Description(n) ==> m == n
  {
    if m != 0 && n != 0 && Description(m) == Description(n) {
      assert Description(m)[12..] == NatToString(m);
      assert Description(n)[12..] == NatToString(n);
      NatToStringInjective(m, n);
    } else if m == 0 && n != 0 {
      assert Description(m)[6] != Description(n)[6];
    } else if m != 0 && n == 0 {
      assert Description(m)[6] != Description(n)[6];
    }
  }

  /** The elements of `s` in the opposite order (`Array.prototype.reverse`). */
  function Reverse<T>(s: seq<T>): (r: seq<T>)
    ensures |r| == |s|
    ensures forall k :: 0 <= k < |s| ==> r[k] == s[|s| - 1 - k]
  {
    if s == [] then [] else [s[|s| - 1]] + Reverse(s[..|s| - 1])
  }

  /** Reversing twice gives back the list. */
  lemma ReverseReverse<T>(s: seq<T>)
    ensures Reverse(Reverse(s)) == s
  {
  }

  /** The entries in history order. */
  function Entries(count: nat): seq<MoveEntry>
  {
    seq(count, (move: nat) => MoveEntry(move, Description(move)))
  }

  /**
   * `history.map(...)` over `count` snapshots, reversed when not ascending.
   * Entry `k` jumps to move `k` in ascending order and to move `count - 1 - k`
   * in descending order, and carries that move's description.
   */
  function Moves(count: nat, isAscending: bool): (r: seq<MoveEntry>)
    ensures |r| == count
    ensures forall k :: 0 <= k < count ==>
      r[k].move == (if isAscending then k else count - 1 - k)
      && r[k].description == Description(r[k].move)
  {
    if isAscending then Entries(count) else Reverse(Entries(count))
  }

  /** Flipping the order reverses the list. */
  lemma MovesFlip(count: nat, isAscending: bool)
    ensures Moves(count, !isAscending) == Reverse(Moves(count, isAscending))
  {
  }
}
