/** The rows of a list as the user moves over them. */
module RowMoves {

  /** One row down or up in a list of `n`, the ends joined. */
  function RowBelow(row: nat, n: nat): nat {
    if n == 0 then row else if row + 1 < n then row + 1 else 0
  }

  function RowAbove(row: nat, n: nat): nat {
    if n == 0 then row else if row == 0 then n - 1 else row - 1
  }

  /** The row kept by a list that may have become shorter. */
  function RowKept(row: nat, n: nat): nat {
    if row < n then row else if n == 0 then 0 else n - 1
  }

  lemma CyclicStep(row: nat, n: nat)
    requires row < n
    ensures (row + 1) % n == RowBelow(row, n) && (row - 1) % n == RowAbove(row, n)
  {
    assert row + 1 < n ==> (row + 1) % n == row + 1;
    assert row == 0 ==> (row - 1) % n == n - 1 by { if row == 0 { assert -1 == -1 * n + (n - 1); } }
    assert row > 0 ==> (row - 1) % n == row - 1;
  }
}
