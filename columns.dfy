/**
 * The falling piece (`Column`): a shaft of three blocks whose base block sits at
 * `(x, y)`, the blocks above it at rows `y - 1` and `y - 2`. It moves and cycles
 * while it drops and, once it lands, writes its blocks into the heap.
 */
module Columns {
  import opened Geometry
  import opened Blocks
  import opened Heaps
  import opened Timing

  /** `Column::MOVE_MILLIS`: the interval of the piece's own fall timer. */
  const MoveMillis: nat := 1000

  /** How many shaft blocks lie inside the grid when the base is at row `y`. */
  function Span(y: nat): (n: nat)
    ensures 1 <= n <= 3 && n <= y + 1
    ensures n == 3 || n == y + 1
  {
    if y < 2 then y + 1 else 3
  }

  /** The cells the shaft covers inside the grid, base first, going up. */
  function Placed(x: nat, y: nat): (r: seq<Vec2>)
    ensures |r| == Span(y)
  {
    seq(Span(y), i requires 0 <= i < Span(y) => Vec2(x, y - i))
  }

  /** The grid after writing the first `n` shaft blocks, bottom one first, at `(x, y)` upwards. */
  function Stamp(g: Grid, s: seq<Block>, x: nat, y: nat, n: nat): (r: Grid)
    requires Rectangular(g) && x < |g| && y < Rows(g) && |s| == 3 && n <= Span(y)
    ensures SameShape(r, g)
  {
    if n == 0 then g
    else Set(Stamp(g, s, x, y, n - 1), Vec2(x, y - (n - 1)), s[2 - (n - 1)])
  }

  /** Writing `n` blocks changes exactly the `n` cells at and above the base, to `s[2]`, `s[1]`, `s[0]`. */
  lemma {:induction false} StampCell(g: Grid, s: seq<Block>, x: nat, y: nat, n: nat, cx: nat, cy: nat)
    requires Rectangular(g) && x < |g| && y < Rows(g) && |s| == 3 && n <= Span(y)
    requires cx < |g| && cy < Rows(g)
    ensures Stamp(g, s, x, y, n)[cx][cy] == if cx == x && cy <= y && y - cy < n then s[2 - (y - cy)] else g[cx][cy]
    decreases n
  {
    if n > 0 {
      StampCell(g, s, x, y, n - 1, cx, cy);
    }
  }

  /** A cell is among the placed ones exactly when it is in the base's column, at most `Span(y) - 1` rows above it. */
  lemma PlacedMembers(x: nat, y: nat, cx: nat, cy: nat)
    ensures Vec2(cx, cy) in Placed(x, y) <==> cx == x && cy <= y && y - cy < Span(y)
  {
    var os := Placed(x, y);
    if cx == x && cy <= y && y - cy < Span(y) {
      assert os[y - cy] == Vec2(cx, cy);
    }
  }

  /** The placed cells are distinct and run upwards from the base, three of them or up to the top row. */
  lemma PlacedShape(x: nat, y: nat)
    ensures var os := Placed(x, y);
      && 1 <= |os| <= 3 && os[0] == Vec2(x, y) && NoDuplicates(os)
      && (|os| == 3 || os[|os| - 1].y == 0)
      && (forall i :: 0 <= i < |os| ==> os[i] == Vec2(x, y - i))
  {
  }

  /** Stamping leaves every cell outside the placed ones as it was. */
  lemma StampOutside(g: Grid, s: seq<Block>, x: nat, y: nat)
    requires IsHeap(g) && x < NumCols && y < NumRows && |s| == 3
    ensures var r := Stamp(g, s, x, y, Span(y));
      forall cx, cy :: 0 <= cx < NumCols && 0 <= cy < NumRows && Vec2(cx, cy) !in Placed(x, y) ==> r[cx][cy] == g[cx][cy]
  {
    var r := Stamp(g, s, x, y, Span(y));
    forall cx, cy | 0 <= cx < NumCols && 0 <= cy < NumRows && Vec2(cx, cy) !in Placed(x, y)
      ensures r[cx][cy] == g[cx][cy]
    {
      StampCell(g, s, x, y, Span(y), cx, cy);
      PlacedMembers(x, y, cx, cy);
    }
  }

  /** Stamping puts the shaft's blocks, bottom block first, into the placed cells. */
  lemma StampInside(g: Grid, s: seq<Block>, x: nat, y: nat)
    requires IsHeap(g) && x < NumCols && y < NumRows && |s| == 3
    ensures var os := Placed(x, y);
      forall i :: 0 <= i < |os| ==> Get(Stamp(g, s, x, y, Span(y)), os[i]) == s[2 - i]
  {
    var os := Placed(x, y);
    forall i | 0 <= i < |os|
      ensures Get(Stamp(g, s, x, y, Span(y)), os[i]) == s[2 - i]
    {
      StampCell(g, s, x, y, Span(y), x, y - i);
    }
  }

  /**
   * Writing the in-grid shaft blocks: the written cells are distinct, base first,
   * each holding its shaft block, and no other cell changes.
   */
  lemma StampPlaced(g: Grid, s: seq<Block>, x: nat, y: nat)
    requires IsHeap(g) && x < NumCols && y < NumRows && |s| == 3
    ensures var os := Placed(x, y);
      var r := Stamp(g, s, x, y, Span(y));
      && IsHeap(r)
      && 1 <= |os| <= 3 && os[0] == Vec2(x, y) && NoDuplicates(os)
      && (|os| == 3 || os[|os| - 1].y == 0)
      && (forall i :: 0 <= i < |os| ==> os[i] == Vec2(x, y - i) && InGrid(g, os[i]) && Get(r, os[i]) == s[2 - i])
      && (forall cx, cy :: 0 <= cx < NumCols && 0 <= cy < NumRows && Vec2(cx, cy) !in os ==> r[cx][cy] == g[cx][cy])
  {
    PlacedShape(x, y);
    StampOutside(g, s, x, y);
    StampInside(g, s, x, y);
  }

  /** The value of a falling piece. */
  datatype ColumnState = ColumnState(shaft: seq<Block>, x: nat, y: nat, dropping: bool, timer: TimerState) {

    /** A three-block shaft, and inside the grid for as long as it drops. */
    predicate Valid()
    {
      |shaft| == 3 && (dropping ==> x < NumCols && y < NumRows)
    }

    /** `Column::from`: the given shaft at the starting cell, dropping, with a fresh timer. */
    static function From(s: seq<Block>): (c: ColumnState)
      requires |s| == 3
      ensures c.Valid()
    {
      ColumnState(s, StartingX, StartingY, true, TimerState.FromMillis(MoveMillis))
    }

    /** `Column::default`: a piece of three empty blocks. */
    static function Default(): (c: ColumnState)
      ensures c.Valid()
    {
      From([Block.Default(), Block.Default(), Block.Default()])
    }

    /** `detect_hit_downwards`: dropping, and on the floor or above a block. */
    predicate HitDown(g: Grid)
      requires IsHeap(g) && Valid()
    {
      dropping && (y == NumRows - 1 || !Get(g, Vec2(x, y + 1)).Empty())
    }

    /** `detect_hit_leftwards`: dropping, and at the left wall or beside a block. */
    predicate HitLeft(g: Grid)
      requires IsHeap(g) && Valid()
    {
      dropping && (x == 0 || !Get(g, Vec2(x - 1, y)).Empty())
    }

    /** `detect_hit_rightwards`: dropping, and at the right wall or beside a block. */
    predicate HitRight(g: Grid)
      requires IsHeap(g) && Valid()
    {
      dropping && (x == NumCols - 1 || !Get(g, Vec2(x + 1, y)).Empty())
    }

    /** `move_down`: one row down unless blocked. */
    function MoveDown(g: Grid): (c: ColumnState)
      requires IsHeap(g) && Valid()
    {
      if HitDown(g) then this else this.(y := y + 1)
    }

    /**
     * `move_left`: one column left unless blocked. A piece that no longer drops is
     * never blocked, and at column 0 the unsigned decrement would underflow.
     */
    function MoveLeft(g: Grid): (c: ColumnState)
      requires IsHeap(g) && Valid() && (dropping || x > 0)
    {
      if HitLeft(g) then this else this.(x := x - 1)
    }

    /** `move_right`: one column right unless blocked. */
    function MoveRight(g: Grid): (c: ColumnState)
      requires IsHeap(g) && Valid()
    {
      if HitRight(g) then this else this.(x := x + 1)
    }

    /** `cycle`: while dropping, the shaft rotates right by one. */
    function Cycle(): (c: ColumnState)
      requires Valid()
    {
      if dropping then this.(shaft := [shaft[2], shaft[0], shaft[1]]) else this
    }

    /** `update`: the fall timer counts `delta` down; when ready it restarts and the piece moves down. */
    function Update(g: Grid, delta: nat): (c: ColumnState)
      requires IsHeap(g) && Valid()
    {
      var t := timer.Update(delta);
      if t.ready then this.(timer := t.Reset()).MoveDown(g) else this.(timer := t)
    }

    /**
     * `detect_landing`: when the piece is blocked below and a copy of its timer,
     * advanced by `delta`, is ready, it stops dropping and writes its in-grid
     * blocks into the heap; the written cells are returned base first.
     */
    function Land(g: Grid, delta: nat): (l: Landing)
      requires IsHeap(g) && Valid()
    {
      if HitDown(g) && timer.Update(delta).ready then
        Landing(this.(dropping := false), Stamp(g, shaft, x, y, Span(y)), Some(Placed(x, y)))
      else Landing(this, g, None)
    }
  }

  /** What a landing check leaves: the piece, the heap and the written cells, if it landed. */
  datatype Landing = Landing(column: ColumnState, grid: Grid, origins: Option<seq<Vec2>>)

  /** A fresh piece starts at the starting cell, dropping, with its shaft as given. */
  lemma FromStarts(s: seq<Block>)
    requires |s| == 3
    ensures var c := ColumnState.From(s);
      c.x == StartingX && c.y == StartingY && c.dropping && c.shaft == s
      && !c.timer.ready && c.timer.remaining == MoveMillis && c.timer.millis == MoveMillis
    ensures ColumnState.Default().shaft == [Block.Default(), Block.Default(), Block.Default()]
    ensures forall i :: 0 <= i < 3 ==> ColumnState.Default().shaft[i].Empty()
  {
  }

  /** A piece that no longer drops is never blocked in any direction. */
  lemma HitsNeedDropping(c: ColumnState, g: Grid)
    requires IsHeap(g) && c.Valid() && !c.dropping
    ensures !c.HitDown(g) && !c.HitLeft(g) && !c.HitRight(g)
  {
  }

  /**
   * While dropping, a move changes one coordinate by exactly one, and does so
   * exactly when the target cell is inside the grid and empty; otherwise nothing
   * changes. Every move keeps the piece valid.
   */
  lemma MovesWhileDropping(c: ColumnState, g: Grid)
    requires IsHeap(g) && c.Valid() && c.dropping
    ensures var r := c.MoveDown(g);
      r.Valid() && r.x == c.x && r.shaft == c.shaft && r.timer == c.timer && r.dropping
      && (r.y == c.y + 1 <==> c.y + 1 < NumRows && Get(g, Vec2(c.x, c.y + 1)).Empty())
      && (r.y != c.y + 1 ==> r == c)
    ensures var r := c.MoveLeft(g);
      r.Valid() && r.y == c.y && r.shaft == c.shaft && r.timer == c.timer && r.dropping
      && (r.x + 1 == c.x <==> c.x > 0 && Get(g, Vec2(c.x - 1, c.y)).Empty())
      && (r.x + 1 != c.x ==> r == c)
    ensures var r := c.MoveRight(g);
      r.Valid() && r.y == c.y && r.shaft == c.shaft && r.timer == c.timer && r.dropping
      && (r.x == c.x + 1 <==> c.x + 1 < NumCols && Get(g, Vec2(c.x + 1, c.y)).Empty())
      && (r.x != c.x + 1 ==> r == c)
  {
  }

  /** A piece that no longer drops moves unchecked: the source tests nothing once `dropping` is false. */
  lemma MovesAfterLanding(c: ColumnState, g: Grid)
    requires IsHeap(g) && c.Valid() && !c.dropping
    ensures c.MoveDown(g) == c.(y := c.y + 1)
    ensures c.MoveRight(g) == c.(x := c.x + 1)
    ensures c.x > 0 ==> c.MoveLeft(g) == c.(x := c.x - 1)
    ensures c.MoveDown(g).Valid() && c.MoveRight(g).Valid()
  {
  }

  /** Cycling rotates the shaft right while dropping and does nothing otherwise; three cycles restore it. */
  lemma CycleRotates(c: ColumnState)
    requires c.Valid()
    ensures var r := c.Cycle();
      r.Valid() && r.x == c.x && r.y == c.y && r.dropping == c.dropping && r.timer == c.timer
      && (c.dropping ==> r.shaft[1] == c.shaft[0] && r.shaft[2] == c.shaft[1] && r.shaft[0] == c.shaft[2])
      && (!c.dropping ==> r == c)
      && multiset(r.shaft) == multiset(c.shaft)
    ensures c.Cycle().Cycle().Cycle() == c
  {
    var r := c.Cycle();
    assert r.Valid();
    if c.dropping {
      assert c.shaft == [c.shaft[0], c.shaft[1], c.shaft[2]];
      assert r.Cycle().Cycle().shaft == c.shaft;
    }
  }

  /**
   * A tick of the piece: the timer counts down by `delta`; exactly when it runs
   * out it restarts and the piece takes one `move_down`, otherwise the piece stays.
   * Validity is kept either way.
   */
  lemma UpdateSteps(c: ColumnState, g: Grid, delta: nat)
    requires IsHeap(g) && c.Valid()
    ensures var r := c.Update(g, delta);
      r.Valid() && r.dropping == c.dropping && r.shaft == c.shaft && r.x == c.x
      && (c.timer.remaining <= delta ==> r.timer == TimerState.FromMillis(c.timer.millis)
                                         && r.y == c.MoveDown(g).y)
      && (delta < c.timer.remaining ==> r.timer == c.timer.Update(delta) && r.y == c.y)
  {
  }

  /**
   * Landing: nothing happens unless the piece is blocked below and its timer would
   * be ready; then it stops dropping with its own timer untouched, the heap gains
   * the in-grid shaft blocks (`shaft[2]` at the base, `shaft[1]` and `shaft[0]`
   * above) and nothing else, and the written cells are returned base first.
   */
  lemma LandWrites(c: ColumnState, g: Grid, delta: nat)
    requires IsHeap(g) && c.Valid()
    ensures var l := c.Land(g, delta);
      && (l.origins.None? <==> !(c.HitDown(g) && c.timer.Update(delta).ready))
      && (l.origins.None? ==> l.column == c && l.grid == g)
      && (l.origins.Some? ==>
            var os := l.origins.value;
            && l.column == c.(dropping := false) && IsHeap(l.grid)
            && 1 <= |os| <= 3 && os[0] == Vec2(c.x, c.y) && NoDuplicates(os)
            && (|os| == 3 || os[|os| - 1].y == 0)
            && (forall i :: 0 <= i < |os| ==>
                  os[i] == Vec2(c.x, c.y - i) && InGrid(g, os[i]) && Get(l.grid, os[i]) == c.shaft[2 - i])
            && (forall cx, cy :: 0 <= cx < NumCols && 0 <= cy < NumRows && Vec2(cx, cy) !in os ==>
                  l.grid[cx][cy] == g[cx][cy]))
  {
    if c.HitDown(g) && c.timer.Update(delta).ready {
      StampPlaced(g, c.shaft, c.x, c.y);
    }
  }

  /** `move_down` applied `n` times in a row. */
  function MoveDownTimes(c: ColumnState, g: Grid, n: nat): (r: ColumnState)
    requires IsHeap(g) && c.Valid()
    ensures r.Valid()
    decreases n
  {
    if n == 0 then c
    else
      MovesWhileDroppingOrNot(c, g);
      MoveDownTimes(c.MoveDown(g), g, n - 1)
  }

  /** Moving down keeps a piece valid, dropping or not. */
  lemma MovesWhileDroppingOrNot(c: ColumnState, g: Grid)
    requires IsHeap(g) && c.Valid()
    ensures c.MoveDown(g).Valid() && c.MoveDown(g).dropping == c.dropping
  {
  }

  /** Through an empty column, a dropping piece goes down one row per move until the floor. */
  lemma {:induction false} FallsThroughEmpty(c: ColumnState, g: Grid, n: nat)
    requires IsHeap(g) && c.Valid() && c.dropping && c.y + n < NumRows
    requires forall cy :: c.y < cy < NumRows ==> Get(g, Vec2(c.x, cy)).Empty()
    ensures MoveDownTimes(c, g, n) == c.(y := c.y + n)
    decreases n
  {
    if n > 0 {
      assert Get(g, Vec2(c.x, c.y + 1)).Empty();
      FallsThroughEmpty(c.MoveDown(g), g, n - 1);
    }
  }

  /** The `test_update` scenario: 999 ms leave the piece at row 0, one more moves it to row 1. */
  lemma UpdateScenario(s: seq<Block>)
    requires |s| == 3
    ensures var c0 := ColumnState.From(s);
      var c1 := c0.Update(EmptyHeap(), MoveMillis - 1);
      var c2 := c1.Update(EmptyHeap(), 1);
      c1.y == 0 && c2.y == 1
  {
    var g := EmptyHeap();
    assert Get(g, Vec2(StartingX, StartingY + 1)).Empty();
  }

  /** The `test_landing_on_heap` scenario: free below gives no landing; a block below lands the base only. */
  lemma LandingOnHeapScenario(s: seq<Block>)
    requires |s| == 3
    ensures ColumnState.From(s).Land(EmptyHeap(), MoveMillis).origins == None
    ensures var g := Set(EmptyHeap(), Vec2(StartingX, StartingY + 1), Block.New(Some(Blue)));
      ColumnState.From(s).Land(g, MoveMillis).origins == Some([Vec2(StartingX, StartingY)])
  {
    var g0 := EmptyHeap();
    assert Get(g0, Vec2(StartingX, StartingY + 1)).Empty();
    var g := Set(g0, Vec2(StartingX, StartingY + 1), Block.New(Some(Blue)));
    assert Placed(StartingX, StartingY) == [Vec2(StartingX, StartingY)];
  }

  /** The `test_landing_reached_bottom` scenario: after twelve moves the piece lands on the floor, all three blocks written. */
  lemma LandingAtBottomScenario(s: seq<Block>)
    requires |s| == 3
    ensures var c := MoveDownTimes(ColumnState.From(s), EmptyHeap(), NumRows - 1);
      c.Land(EmptyHeap(), MoveMillis).origins
        == Some([Vec2(StartingX, NumRows - 1), Vec2(StartingX, NumRows - 2), Vec2(StartingX, NumRows - 3)])
  {
    var g := EmptyHeap();
    var c0 := ColumnState.From(s);
    FallsThroughEmpty(c0, g, NumRows - 1);
    var c := c0.(y := NumRows - 1);
    assert Placed(StartingX, NumRows - 1)
        == [Vec2(StartingX, NumRows - 1), Vec2(StartingX, NumRows - 2), Vec2(StartingX, NumRows - 3)];
  }

  /** The falling piece; `move_*`, `cycle`, `update` and `detect_landing` change it in place. */
  class Column {
    const shaft: array<Block>
    var x: nat
    var y: nat
    var dropping: bool
    const moveTimer: Timer

    ghost function View(): ColumnState
      reads this, shaft, moveTimer
    {
      ColumnState(shaft[..], x, y, dropping, moveTimer.State())
    }

    ghost predicate Valid()
      reads this, shaft, moveTimer
    {
      shaft.Length == 3 && View().Valid()
    }

    /** `Column::from`. */
    constructor From(s: seq<Block>)
      requires |s| == 3
      ensures Valid() && View() == ColumnState.From(s)
      ensures fresh(shaft) && fresh(moveTimer)
    {
      shaft := new Block[3](i requires 0 <= i < 3 => s[i]);
      x := StartingX;
      y := StartingY;
      dropping := true;
      moveTimer := new Timer.FromMillis(MoveMillis);
      new;
      assert shaft[..] == s;
    }

    /** `Column::default`. */
    constructor Default()
      ensures Valid() && View() == ColumnState.Default()
      ensures fresh(shaft) && fresh(moveTimer)
    {
      shaft := new Block[3](i => Block.Default());
      x := StartingX;
      y := StartingY;
      dropping := true;
      moveTimer := new Timer.FromMillis(MoveMillis);
      new;
      assert shaft[..] == [Block.Default(), Block.Default(), Block.Default()];
    }

    /** `cycle`: `rotate_right(1)` on the shaft while dropping. */
    method Cycle()
      requires Valid()
      modifies shaft
      ensures Valid() && View() == old(View()).Cycle()
    {
      if dropping {
        var last := shaft[2];
        shaft[2] := shaft[1];
        shaft[1] := shaft[0];
        shaft[0] := last;
      }
    }

    method DetectHitDownwards(heap: array2<Block>) returns (hit: bool)
      requires Valid() && heap.Length0 == NumCols && heap.Length1 == NumRows
      ensures hit == View().HitDown(Cells(heap))
    {
      hit := dropping && (y == NumRows - 1 || !heap[x, y + 1].Empty());
    }

    method DetectHitLeftwards(heap: array2<Block>) returns (hit: bool)
      requires Valid() && heap.Length0 == NumCols && heap.Length1 == NumRows
      ensures hit == View().HitLeft(Cells(heap))
    {
      hit := dropping && (x == 0 || !heap[x - 1, y].Empty());
    }

    method DetectHitRightwards(heap: array2<Block>) returns (hit: bool)
      requires Valid() && heap.Length0 == NumCols && heap.Length1 == NumRows
      ensures hit == View().HitRight(Cells(heap))
    {
      hit := dropping && (x == NumCols - 1 || !heap[x + 1, y].Empty());
    }

    method MoveDown(heap: array2<Block>)
      requires Valid() && heap.Length0 == NumCols && heap.Length1 == NumRows
      modifies this
      ensures Valid() && View() == old(View()).MoveDown(Cells(heap))
    {
      var hit := DetectHitDownwards(heap);
      if !hit {
        y := y + 1;
      }
    }

    method MoveLeft(heap: array2<Block>)
      requires Valid() && heap.Length0 == NumCols && heap.Length1 == NumRows && (dropping || x > 0)
      modifies this
      ensures Valid() && View() == old(View()).MoveLeft(Cells(heap))
    {
      var hit := DetectHitLeftwards(heap);
      if !hit {
        x := x - 1;
      }
    }

    method MoveRight(heap: array2<Block>)
      requires Valid() && heap.Length0 == NumCols && heap.Length1 == NumRows
      modifies this
      ensures Valid() && View() == old(View()).MoveRight(Cells(heap))
    {
      var hit := DetectHitRightwards(heap);
      if !hit {
        x := x + 1;
      }
    }

    /** `update`: tick the fall timer and move down when it is ready; reports whether the piece still drops. */
    method Update(heap: array2<Block>, delta: nat) returns (stillDropping: bool)
      requires Valid() && heap.Length0 == NumCols && heap.Length1 == NumRows
      modifies this, moveTimer
      ensures Valid() && View() == old(View()).Update(Cells(heap), delta)
      ensures stillDropping == dropping
    {
      moveTimer.Update(delta);
      if moveTimer.ready {
        moveTimer.Reset();
        MoveDown(heap);
      }
      stillDropping := dropping;
    }

    /** The transfer loop of `detect_landing`: the in-grid shaft blocks go into the heap, base first. */
    method Transfer(heap: array2<Block>) returns (found: seq<Vec2>)
      requires shaft.Length == 3 && heap.Length0 == NumCols && heap.Length1 == NumRows
      requires x < NumCols && y < NumRows
      modifies heap
      ensures Cells(heap) == Stamp(old(Cells(heap)), shaft[..], x, y, Span(y))
      ensures found == Placed(x, y)
    {
      ghost var g := Cells(heap);
      found := [];
      for i := 0 to 3
        invariant i <= Span(y)
        invariant Cells(heap) == Stamp(g, shaft[..], x, y, i)
        invariant found == Placed(x, y)[..i]
      {
        if i > y {
          break;
        }
        Store(heap, Vec2(x, y - i), shaft[2 - i]);
        found := found + [Vec2(x, y - i)];
      }
      assert found == Placed(x, y);
    }

    /** `detect_landing`: described by `ColumnState.Land`. */
    method DetectLanding(heap: array2<Block>, delta: nat) returns (origins: Option<seq<Vec2>>)
      requires Valid() && heap.Length0 == NumCols && heap.Length1 == NumRows
      modifies this, heap
      ensures Valid()
      ensures var l := old(View()).Land(old(Cells(heap)), delta);
        View() == l.column && Cells(heap) == l.grid && origins == l.origins
    {
      ghost var c := View();
      ghost var g := Cells(heap);
      var hit := DetectHitDownwards(heap);
      if hit {
        var timerCopy := new Timer.Clone(moveTimer);
        timerCopy.Update(delta);
        if timerCopy.ready {
          dropping := false;
          var found := Transfer(heap);
          return Some(found);
        }
      }
      return None;
    }
  }
}
