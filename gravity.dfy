/**
 * What happens after a match explodes (`PitState::collect_dropping_at` and
 * `update_dropping_at`): the blocks left hanging above the cleared cells are
 * collected, lowest first, and then moved down one row per pass while the cell
 * below them is empty.
 */
module Gravity {
  import opened Geometry
  import opened Blocks
  import opened Heaps

  /**
   * The scan above a cleared cell in column `x`, taking rows `n - 1`, `n - 2`, ...
   * upwards while they hold a block and stopping at the first empty one.
   */
  function Above(g: Grid, x: nat, n: nat): (r: seq<Vec2>)
    requires Rectangular(g) && x < |g| && n <= Rows(g)
    ensures |r| <= n
    ensures forall k :: 0 <= k < |r| ==> r[k] == Vec2(x, n - 1 - k)
  {
    if n == 0 || Get(g, Vec2(x, n - 1)).Empty() then []
    else [Vec2(x, n - 1)] + Above(g, x, n - 1)
  }

  /** The cells above collected hold blocks, and the scan ends at the top row or an empty cell. */
  lemma {:induction false} AboveCells(g: Grid, x: nat, n: nat)
    requires Rectangular(g) && x < |g| && n <= Rows(g)
    ensures forall p :: p in Above(g, x, n) ==> InGrid(g, p) && !Get(g, p).Empty()
    ensures var m := |Above(g, x, n)|; m == n || Get(g, Vec2(x, n - 1 - m)).Empty()
    decreases n
  {
    if n > 0 && !Get(g, Vec2(x, n - 1)).Empty() {
      AboveCells(g, x, n - 1);
    }
  }

  /** The cells above the origins, each origin's run in turn. */
  function Unsupported(g: Grid, os: seq<Vec2>): (r: seq<Vec2>)
    requires Rectangular(g) && AllInGrid(g, os)
  {
    if os == [] then []
    else
      var o := os[|os| - 1];
      Unsupported(g, os[..|os| - 1]) + Above(g, o.x, o.y)
  }

  /** A cell is unsupported exactly when it lies in the run above some origin. */
  lemma {:induction false} UnsupportedMembers(g: Grid, os: seq<Vec2>, p: Vec2)
    requires Rectangular(g) && AllInGrid(g, os)
    ensures p in Unsupported(g, os) <==> exists k :: 0 <= k < |os| && p in Above(g, os[k].x, os[k].y)
  {
    if os != [] {
      var front := os[..|os| - 1];
      UnsupportedMembers(g, front, p);
      if p in Unsupported(g, os) && p !in Unsupported(g, front) {
        assert p in Above(g, os[|os| - 1].x, os[|os| - 1].y);
      }
      if exists k :: 0 <= k < |os| && p in Above(g, os[k].x, os[k].y) {
        var k :| 0 <= k < |os| && p in Above(g, os[k].x, os[k].y);
        if k < |os| - 1 {
          assert front[k] == os[k];
        }
      }
    }
  }

  /** Every unsupported cell is in the grid and holds a block. */
  lemma UnsupportedCells(g: Grid, os: seq<Vec2>)
    requires Rectangular(g) && AllInGrid(g, os)
    ensures forall p :: p in Unsupported(g, os) ==> InGrid(g, p) && !Get(g, p).Empty()
  {
    forall p | p in Unsupported(g, os)
      ensures InGrid(g, p) && !Get(g, p).Empty()
    {
      UnsupportedMembers(g, os, p);
      var k :| 0 <= k < |os| && p in Above(g, os[k].x, os[k].y);
      AboveCells(g, os[k].x, os[k].y);
    }
  }

  /** The rows never increase along `s`: lowest cells (largest row) first. */
  predicate RowsDescending(s: seq<Vec2>)
  {
    forall i, j :: 0 <= i < j < |s| ==> s[i].y >= s[j].y
  }

  /** A bound on the rows of a list holds for any rearrangement of it. */
  lemma RowBound(a: seq<Vec2>, b: seq<Vec2>, y: int)
    requires multiset(a) == multiset(b)
    requires forall k :: 0 <= k < |b| ==> b[k].y <= y
    ensures forall k :: 0 <= k < |a| ==> a[k].y <= y
  {
    forall k | 0 <= k < |a|
      ensures a[k].y <= y
    {
      assert a[k] in multiset(b);
      var j :| 0 <= j < |b| && b[j] == a[k];
    }
  }

  /** Inserts `p` into a list ordered by descending row, in front of the first cell not below it. */
  function Insert(p: Vec2, s: seq<Vec2>): (r: seq<Vec2>)
    requires RowsDescending(s)
    ensures RowsDescending(r)
    ensures multiset(r) == multiset(s) + multiset{p}
  {
    if s == [] then [p]
    else if p.y >= s[0].y then [p] + s
    else
      var rest := Insert(p, s[1..]);
      InsertBehind(p, s, rest);
      [s[0]] + rest
  }

  /** Putting the head of `s` in front of the insertion into its tail keeps the order and the contents. */
  lemma InsertBehind(p: Vec2, s: seq<Vec2>, rest: seq<Vec2>)
    requires RowsDescending(s) && s != [] && p.y < s[0].y
    requires RowsDescending(rest) && multiset(rest) == multiset(s[1..]) + multiset{p}
    ensures RowsDescending([s[0]] + rest) && multiset([s[0]] + rest) == multiset(s) + multiset{p}
  {
    assert s == [s[0]] + s[1..];
    RowBound(rest, s[1..] + [p], s[0].y);
  }

  /**
   * The ordering `collect_dropping_at` applies (`sort_unstable_by` on descending
   * row): the same cells, lowest first.
   */
  function SortByRow(s: seq<Vec2>): (r: seq<Vec2>)
    ensures RowsDescending(r)
    ensures multiset(r) == multiset(s)
  {
    if s == [] then []
    else
      assert s == [s[0]] + s[1..];
      Insert(s[0], SortByRow(s[1..]))
  }

  /** `collect_dropping_at`: the unsupported cells, ordered lowest first. */
  function Dropping(g: Grid, os: seq<Vec2>): (r: seq<Vec2>)
    requires Rectangular(g) && AllInGrid(g, os)
    ensures RowsDescending(r)
    ensures multiset(r) == multiset(Unsupported(g, os))
  {
    SortByRow(Unsupported(g, os))
  }

  /** The collected cells are exactly the runs above the origins; each lies in the grid and holds a block. */
  lemma DroppingMembers(g: Grid, os: seq<Vec2>, p: Vec2)
    requires Rectangular(g) && AllInGrid(g, os)
    ensures p in Dropping(g, os) <==> exists k :: 0 <= k < |os| && p in Above(g, os[k].x, os[k].y)
    ensures p in Dropping(g, os) ==> InGrid(g, p) && !Get(g, p).Empty()
  {
    assert p in Dropping(g, os) <==> p in multiset(Unsupported(g, os));
    UnsupportedMembers(g, os, p);
    UnsupportedCells(g, os);
  }

  /**
   * When every origin is a distinct empty cell (as after clearing a match), no
   * cell is collected twice: a run above a lower origin stops at the empty
   * origin above it.
   */
  lemma {:induction false} UnsupportedNoDuplicates(g: Grid, os: seq<Vec2>)
    requires Rectangular(g) && AllInGrid(g, os) && NoDuplicates(os)
    requires forall k :: 0 <= k < |os| ==> Get(g, os[k]).Empty()
    ensures NoDuplicates(Unsupported(g, os))
  {
    if os != [] {
      var front := os[..|os| - 1];
      var o := os[|os| - 1];
      UnsupportedNoDuplicates(g, front);
      var a := Unsupported(g, front);
      var b := Above(g, o.x, o.y);
      forall p | p in a
        ensures p !in b
      {
        UnsupportedMembers(g, front, p);
        var k :| 0 <= k < |front| && p in Above(g, front[k].x, front[k].y);
        var q := front[k];
        assert q == os[k] && q != o;
        if p in b {
          AboveCells(g, q.x, q.y);
          AboveCells(g, o.x, o.y);
          if q.y < o.y {
            AboveBlockedBy(g, o, q);
          } else {
            AboveBlockedBy(g, q, o);
          }
        }
      }
      NoDuplicatesConcatenation(a, b);
    }
  }

  /** A run from `o` never reaches past an empty cell `q` above it in the same column. */
  lemma AboveBlockedBy(g: Grid, o: Vec2, q: Vec2)
    requires Rectangular(g) && InGrid(g, o) && InGrid(g, q) && Get(g, q).Empty()
    requires q.x == o.x && q.y < o.y
    ensures forall p :: p in Above(g, o.x, o.y) ==> p.y > q.y
  {
    AboveShorterThanGap(g, o.x, o.y, q.y);
  }

  /** The run over rows below `n` stops short of an empty cell at row `y`. */
  lemma {:induction false} AboveShorterThanGap(g: Grid, x: nat, n: nat, y: nat)
    requires Rectangular(g) && x < |g| && y < n <= Rows(g) && Get(g, Vec2(x, y)).Empty()
    ensures |Above(g, x, n)| <= n - 1 - y
    decreases n
  {
    if n - 1 > y && !Get(g, Vec2(x, n - 1)).Empty() {
      AboveShorterThanGap(g, x, n - 1, y);
    }
  }

  /** 1 when the block is of kind `k` (`None` for an empty cell), else 0. */
  function Is(b: Block, k: Option<BlockKind>): nat
  {
    if b.kind == k then 1 else 0
  }

  /** How many cells of one column hold kind `k`. */
  function ColumnCount(c: seq<Block>, k: Option<BlockKind>): nat
  {
    if c == [] then 0 else ColumnCount(c[..|c| - 1], k) + Is(c[|c| - 1], k)
  }

  /** How many cells of the grid hold kind `k`: the heap's contents, ignoring position. */
  function Count(g: Grid, k: Option<BlockKind>): nat
  {
    if g == [] then 0 else Count(g[..|g| - 1], k) + ColumnCount(g[|g| - 1], k)
  }

  /** Replacing one block of a column trades its kind for the new one. */
  lemma {:induction false} ColumnCountUpdate(c: seq<Block>, i: nat, b: Block, k: Option<BlockKind>)
    requires i < |c|
    ensures ColumnCount(c[i := b], k) + Is(c[i], k) == ColumnCount(c, k) + Is(b, k)
  {
    var d := c[i := b];
    if i == |c| - 1 {
      assert d[..|d| - 1] == c[..|c| - 1];
    } else {
      ColumnCountUpdate(c[..|c| - 1], i, b, k);
      assert d[..|d| - 1] == c[..|c| - 1][i := b];
    }
  }

  /** Replacing one block of the grid trades its kind for the new one. */
  lemma {:induction false} CountUpdate(g: Grid, p: Vec2, b: Block, k: Option<BlockKind>)
    requires Rectangular(g) && InGrid(g, p)
    ensures Count(Set(g, p, b), k) + Is(Get(g, p), k) == Count(g, k) + Is(b, k)
  {
    var h := g[p.x := g[p.x][p.y := b]];
    assert Set(g, p, b) == h;
    if p.x == |g| - 1 {
      assert h[..|h| - 1] == g[..|g| - 1];
      ColumnCountUpdate(g[p.x], p.y, b, k);
    } else {
      var front := g[..|g| - 1];
      assert Rectangular(front) && Rows(front) == Rows(g);
      CountUpdate(front, p, b, k);
      assert h[..|h| - 1] == Set(front, p, b);
    }
  }

  /** A column holds at most as many blocks of one kind as it has cells. */
  lemma {:induction false} ColumnCountBound(c: seq<Block>, k: Option<BlockKind>)
    ensures ColumnCount(c, k) <= |c|
  {
    if c != [] {
      ColumnCountBound(c[..|c| - 1], k);
    }
  }

  /** A grid holds at most as many blocks of one kind as it has cells. */
  lemma {:induction false} CountBound(g: Grid, k: Option<BlockKind>)
    requires Rectangular(g)
    ensures Count(g, k) <= |g| * Rows(g)
  {
    if g != [] {
      var front := g[..|g| - 1];
      assert Rectangular(front) && (front != [] ==> Rows(front) == Rows(g));
      CountBound(front, k);
      ColumnCountBound(g[|g| - 1], k);
      assert |front| * Rows(front) <= (|g| - 1) * Rows(g);
      assert (|g| - 1) * Rows(g) + Rows(g) == |g| * Rows(g);
    }
  }

  /** The result of dropping at one origin: the new grid, where the origin now is, and whether it moved. */
  datatype Drop = Drop(grid: Grid, at: Vec2, moved: bool)

  /**
   * One step of `update_dropping_at`: if the cell below the origin exists and is
   * empty, the block moves into it; the cell it leaves loses its kind but keeps
   * its exploding flag.
   */
  function DropOne(g: Grid, o: Vec2): (r: Drop)
    requires Rectangular(g) && InGrid(g, o)
    ensures SameShape(r.grid, g) && InGrid(r.grid, r.at)
  {
    var below := Vec2(o.x, o.y + 1);
    if o.y + 1 < Rows(g) && Get(g, below).Empty() then
      var item := Get(g, o);
      Drop(Set(Set(g, o, item.Update(None)), below, item), below, true)
    else Drop(g, o, false)
  }

  /**
   * What one drop does: it moves exactly when the cell below exists and is empty;
   * then the block arrives there intact, the cell it left keeps only its
   * exploding flag, and no other cell changes.
   */
  lemma DropOneEffect(g: Grid, o: Vec2)
    requires Rectangular(g) && InGrid(g, o)
    ensures var r := DropOne(g, o);
      && (r.moved <==> o.y + 1 < Rows(g) && Get(g, Vec2(o.x, o.y + 1)).Empty())
      && (r.moved ==> r.at == Vec2(o.x, o.y + 1) && Get(r.grid, r.at) == Get(g, o)
                      && Get(r.grid, o) == Block(None, Get(g, o).exploding))
      && (!r.moved ==> r.grid == g && r.at == o)
      && forall x, y :: 0 <= x < |g| && 0 <= y < Rows(g) && Vec2(x, y) != o && Vec2(x, y) != r.at ==>
           r.grid[x][y] == g[x][y]
  {
  }

  /** A drop never creates or destroys a block: every kind keeps its count. */
  lemma DropOneKinds(g: Grid, o: Vec2, k: Option<BlockKind>)
    requires Rectangular(g) && InGrid(g, o)
    ensures Count(DropOne(g, o).grid, k) == Count(g, k)
  {
    var below := Vec2(o.x, o.y + 1);
    if o.y + 1 < Rows(g) && Get(g, below).Empty() {
      var item := Get(g, o);
      var g1 := Set(g, o, item.Update(None));
      CountUpdate(g, o, item.Update(None), k);
      CountUpdate(g1, below, item, k);
      assert Get(g1, below) == Get(g, below);
    }
  }

  /** The result of a whole pass: the new grid, the moved origins and whether anything dropped. */
  datatype Pass = Pass(grid: Grid, origins: seq<Vec2>, dropped: bool)

  /** `update_dropping_at`: a drop at every origin in turn, each on the grid the previous ones left. */
  function DropPass(g: Grid, os: seq<Vec2>): (r: Pass)
    requires Rectangular(g) && AllInGrid(g, os)
    ensures SameShape(r.grid, g) && |r.origins| == |os| && AllInGrid(r.grid, r.origins)
  {
    if os == [] then Pass(g, [], false)
    else
      var p := DropPass(g, os[..|os| - 1]);
      var d := DropOne(p.grid, os[|os| - 1]);
      Pass(d.grid, p.origins + [d.at], p.dropped || d.moved)
  }

  /** A pass never creates or destroys a block: every kind keeps its count. */
  lemma {:induction false} DropPassKinds(g: Grid, os: seq<Vec2>, k: Option<BlockKind>)
    requires Rectangular(g) && AllInGrid(g, os)
    ensures Count(DropPass(g, os).grid, k) == Count(g, k)
  {
    if os != [] {
      DropPassKinds(g, os[..|os| - 1], k);
      DropOneKinds(DropPass(g, os[..|os| - 1]).grid, os[|os| - 1], k);
    }
  }

  /** How far the origins can still fall: the rows below each of them, summed. */
  function Headroom(rows: nat, os: seq<Vec2>): nat
    requires forall k :: 0 <= k < |os| ==> os[k].y < rows
  {
    if os == [] then 0 else Headroom(rows, os[..|os| - 1]) + (rows - 1 - os[|os| - 1].y)
  }

  /**
   * A pass either drops something and strictly lowers the headroom, or drops
   * nothing and leaves grid and origins as they were: repeating passes ends.
   */
  lemma {:induction false} DropPassProgress(g: Grid, os: seq<Vec2>)
    requires Rectangular(g) && AllInGrid(g, os)
    ensures var r := DropPass(g, os);
      && (r.dropped ==> Headroom(Rows(g), r.origins) < Headroom(Rows(g), os))
      && (!r.dropped ==> r.grid == g && r.origins == os)
      && Headroom(Rows(g), r.origins) <= Headroom(Rows(g), os)
  {
    if os != [] {
      var front := os[..|os| - 1];
      var o := os[|os| - 1];
      DropPassProgress(g, front);
      var p := DropPass(g, front);
      var d := DropOne(p.grid, o);
      var r := DropPass(g, os);
      assert r.origins[..|r.origins| - 1] == p.origins;
      if !r.dropped {
        assert p.origins + [o] == os;
      }
    }
  }

  /** Where repeated passes come to rest: the grid, the moved origins and how many passes dropped something. */
  datatype Outcome = Outcome(grid: Grid, origins: seq<Vec2>, passes: nat)

  /**
   * Passes repeated on the moved origins until one drops nothing, as the
   * dropping test's loop calls `update_dropping_at`.
   */
  function Settle(g: Grid, os: seq<Vec2>): (r: Outcome)
    requires Rectangular(g) && AllInGrid(g, os)
    ensures SameShape(r.grid, g) && |r.origins| == |os| && AllInGrid(r.grid, r.origins)
    ensures r.passes == 0 <==> !DropPass(g, os).dropped
    decreases Headroom(Rows(g), os)
  {
    var p := DropPass(g, os);
    DropPassProgress(g, os);
    if p.dropped then
      var s := Settle(p.grid, p.origins);
      Outcome(s.grid, s.origins, s.passes + 1)
    else Outcome(g, os, 0)
  }

  /** Settling keeps the shape and every block of the grid. */
  lemma {:induction false} SettleKinds(g: Grid, os: seq<Vec2>, k: Option<BlockKind>)
    requires Rectangular(g) && AllInGrid(g, os)
    ensures Count(Settle(g, os).grid, k) == Count(g, k)
    decreases Headroom(Rows(g), os)
  {
    var p := DropPass(g, os);
    DropPassProgress(g, os);
    DropPassKinds(g, os, k);
    if p.dropped {
      SettleKinds(p.grid, p.origins, k);
    }
  }

  /** Settled means a further pass over the origins where the blocks came to rest drops nothing. */
  lemma {:induction false} SettleIsStable(g: Grid, os: seq<Vec2>)
    requires Rectangular(g) && AllInGrid(g, os)
    ensures var r := Settle(g, os); !DropPass(r.grid, r.origins).dropped
    decreases Headroom(Rows(g), os)
  {
    var p := DropPass(g, os);
    DropPassProgress(g, os);
    if p.dropped {
      SettleIsStable(p.grid, p.origins);
    }
  }

  /** `collect_dropping_at`: scan above every origin, then order the cells lowest first. */
  method CollectDroppingAt(heap: array2<Block>, origins: seq<Vec2>) returns (items: seq<Vec2>)
    requires forall k :: 0 <= k < |origins| ==> InArray(heap, origins[k])
    ensures items == Dropping(Cells(heap), origins)
  {
    ghost var g := Cells(heap);
    assert AllInGrid(g, origins);
    items := [];
    for i := 0 to |origins|
      invariant items == Unsupported(g, origins[..i])
    {
      var o := origins[i];
      ghost var before := items;
      var y: nat := o.y;
      while y > 0
        invariant y <= o.y
        invariant before + Above(g, o.x, o.y) == items + Above(g, o.x, y)
      {
        assert heap[o.x, y - 1] == Get(g, Vec2(o.x, y - 1));
        if heap[o.x, y - 1].Empty() {
          break;
        }
        ghost var run := Above(g, o.x, y - 1);
        assert Above(g, o.x, y) == [Vec2(o.x, y - 1)] + run;
        assert items + ([Vec2(o.x, y - 1)] + run) == (items + [Vec2(o.x, y - 1)]) + run;
        items := items + [Vec2(o.x, y - 1)];
        y := y - 1;
      }
      assert origins[..i + 1][..i] == origins[..i];
    }
    assert origins[..|origins|] == origins;
    items := SortByRow(items);
  }

  /** The body of `update_dropping_at`'s loop: drop the block at `o` if the cell below is free. */
  method DropAt(heap: array2<Block>, o: Vec2) returns (moved: bool, at: Vec2)
    requires InArray(heap, o)
    modifies heap
    ensures var d := DropOne(old(Cells(heap)), o);
      Cells(heap) == d.grid && at == d.at && moved == d.moved
  {
    ghost var g := Cells(heap);
    moved := false;
    at := o;
    if o.y < heap.Length1 - 1 && heap[o.x, o.y + 1].Empty() {
      var newItem := heap[o.x, o.y];
      heap[o.x, o.y] := heap[o.x, o.y].Update(None);
      at := Vec2(o.x, o.y + 1);
      heap[at.x, at.y] := newItem;
      moved := true;
      HoldsIsCells(heap, Set(Set(g, o, newItem.Update(None)), at, newItem));
    }
  }

  /**
   * `update_dropping_at`: drop the block at each origin in turn; the origins move
   * with their blocks and the result says whether anything dropped.
   */
  method UpdateDroppingAt(heap: array2<Block>, origins: seq<Vec2>) returns (dropped: bool, moved: seq<Vec2>)
    requires forall k :: 0 <= k < |origins| ==> InArray(heap, origins[k])
    modifies heap
    ensures var p := DropPass(old(Cells(heap)), origins);
      Cells(heap) == p.grid && moved == p.origins && dropped == p.dropped
  {
    ghost var g := Cells(heap);
    assert AllInGrid(g, origins);
    dropped := false;
    moved := [];
    for i := 0 to |origins|
      invariant var p := DropPass(g, origins[..i]);
        Cells(heap) == p.grid && moved == p.origins && dropped == p.dropped
    {
      assert origins[..i + 1][..i] == origins[..i];
      var movedHere, at := DropAt(heap, origins[i]);
      dropped := dropped || movedHere;
      moved := moved + [at];
    }
    assert origins[..|origins|] == origins;
  }
}
