/** The heap of landed blocks: a column-major grid, `g[x][y]` for column x and row y. */
module Heaps {
  import opened Geometry
  import opened Blocks

  /** Value view of a heap array; all algorithms are specified on it. */
  type Grid = seq<seq<Block>>

  function Rows(g: Grid): nat
  {
    if |g| == 0 then 0 else |g[0]|
  }

  /** Every column has the same number of rows. */
  predicate Rectangular(g: Grid)
  {
    forall x :: 0 <= x < |g| ==> |g[x]| == Rows(g)
  }

  predicate InGrid(g: Grid, p: Vec2)
  {
    p.x < |g| && p.y < Rows(g)
  }

  predicate AllInGrid(g: Grid, s: seq<Vec2>)
  {
    forall k :: 0 <= k < |s| ==> InGrid(g, s[k])
  }

  /** Same shape as `h`. */
  predicate SameShape(g: Grid, h: Grid)
  {
    Rectangular(g) && Rectangular(h) && |g| == |h| && Rows(g) == Rows(h)
  }

  /** A heap of the pit's own size. */
  predicate IsHeap(g: Grid)
  {
    Rectangular(g) && |g| == NumCols && Rows(g) == NumRows
  }

  function Get(g: Grid, p: Vec2): Block
    requires Rectangular(g) && InGrid(g, p)
  {
    g[p.x][p.y]
  }

  /** The grid with the cell at `p` replaced by `b`. */
  function Set(g: Grid, p: Vec2, b: Block): (r: Grid)
    requires Rectangular(g) && InGrid(g, p)
    ensures SameShape(r, g)
    ensures forall x, y :: 0 <= x < |r| && 0 <= y < Rows(r) ==>
              r[x][y] == if x == p.x && y == p.y then b else g[x][y]
  {
    g[p.x := g[p.x][p.y := b]]
  }

  /** `Pit::new_heap`: every cell holds a fresh block of the given kind. */
  function NewHeap(cols: nat, rows: nat, kind: Option<BlockKind>): (g: Grid)
    ensures Rectangular(g) && |g| == cols && (cols > 0 ==> Rows(g) == rows)
    ensures forall x, y :: 0 <= x < |g| && 0 <= y < Rows(g) ==> g[x][y] == Block.New(kind)
  {
    seq(cols, x => seq(rows, y => Block.New(kind)))
  }

  /** The pit's own heap as built by `Pit::new_heap(None)`. */
  function EmptyHeap(): (g: Grid)
    ensures IsHeap(g)
    ensures forall x, y :: 0 <= x < NumCols && 0 <= y < NumRows ==> g[x][y] == Block.New(None)
  {
    NewHeap(NumCols, NumRows, None)
  }

  /** `p` indexes a cell of the array `a`. */
  predicate InArray(a: array2<Block>, p: Vec2)
  {
    p.x < a.Length0 && p.y < a.Length1
  }

  /** The array `a` holds exactly the cells of `g`. */
  ghost predicate Holds(a: array2<Block>, g: Grid)
    reads a
  {
    && |g| == a.Length0
    && (forall x :: 0 <= x < |g| ==> |g[x]| == a.Length1)
    && forall x, y :: 0 <= x < a.Length0 && 0 <= y < a.Length1 ==> a[x, y] == g[x][y]
  }

  /** Snapshot of a heap array as a value. */
  ghost function Cells(a: array2<Block>): (g: Grid)
    reads a
    ensures Holds(a, g) && Rectangular(g)
    ensures a.Length0 > 0 ==> Rows(g) == a.Length1
    ensures forall p :: InGrid(g, p) <==> InArray(a, p)
  {
    seq(a.Length0, x requires 0 <= x < a.Length0 reads a =>
      seq(a.Length1, y requires 0 <= y < a.Length1 reads a => a[x, y]))
  }

  /** A grid the array holds is its snapshot. */
  lemma HoldsIsCells(a: array2<Block>, g: Grid)
    requires Holds(a, g)
    ensures Cells(a) == g
  {
    var c := Cells(a);
    forall x | 0 <= x < |g|
      ensures c[x] == g[x]
    {
    }
  }

  /** Writes one cell of the heap array in place. */
  method Store(a: array2<Block>, p: Vec2, b: Block)
    requires InArray(a, p)
    modifies a
    ensures Cells(a) == Set(old(Cells(a)), p, b)
  {
    ghost var g := Cells(a);
    a[p.x, p.y] := b;
    HoldsIsCells(a, Set(g, p, b));
  }
}
