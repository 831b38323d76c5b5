/** Game-wide constants and the grid coordinate type. */
module Geometry {

  /** Number of columns of the pit. */
  const NumCols: nat := 6
  /** Number of rows of the pit; row 0 is the top. */
  const NumRows: nat := 13
  /** Column where a fresh falling piece appears. */
  const StartingX: nat := 2
  /** Row of the base block of a fresh falling piece. */
  const StartingY: nat := 0

  /** A grid coordinate: `x` is the column, `y` the row (growing downwards). */
  datatype Vec2 = Vec2(x: nat, y: nat)

  function Min(a: int, b: int): int
  {
    if a <= b then a else b
  }

  /** The list holds no position twice. */
  predicate NoDuplicates(s: seq<Vec2>)
  {
    forall i, j :: 0 <= i < j < |s| ==> s[i] != s[j]
  }

  /** Two duplicate-free lists with no position in common concatenate to a duplicate-free list. */
  lemma NoDuplicatesConcatenation(a: seq<Vec2>, b: seq<Vec2>)
    requires NoDuplicates(a) && NoDuplicates(b)
    requires forall p :: p in a ==> p !in b
    ensures NoDuplicates(a + b)
  {
    var c := a + b;
    forall i, j | 0 <= i < j < |c|
      ensures c[i] != c[j]
    {
      if j >= |a| && i < |a| {
        assert c[i] in a && c[j] in b;
      }
    }
  }
}
