/**
 * The pit's unit tests for `collect_dropping_at` and `update_dropping_at`,
 * restated on their 3 × 3 heap: magenta at (1, 0) and (2, 0), blue at (0, 2)
 * and (1, 2), the rest empty, after the five cells (0, 0), (0, 1), (1, 1),
 * (2, 1) and (2, 2) have exploded.
 */
module DroppingScenarios {
  import opened Geometry
  import opened Blocks
  import opened Heaps
  import opened Gravity

  const E: Block := Block(None, false)
  const B: Block := Block(Some(Blue), false)
  const P: Block := Block(Some(Magenta), false)

  /** The test's heap, column by column. */
  function Start(): Grid
  {
    [[E, E, B], [P, E, B], [P, E, E]]
  }

  /** The heap after the first pass: both magenta blocks one row lower. */
  function FirstPass(): Grid
  {
    [[E, E, B], [E, P, B], [E, P, E]]
  }

  /** The heap after the second pass: the magenta block of column 2 on the floor. */
  function Settled(): Grid
  {
    [[E, E, B], [E, P, B], [E, E, P]]
  }

  /** The cells that exploded. */
  function Exploded(): seq<Vec2>
  {
    [Vec2(0, 0), Vec2(0, 1), Vec2(1, 1), Vec2(2, 1), Vec2(2, 2)]
  }

  /** The heap is the one the test builds by updating the kinds of fresh empty blocks. */
  lemma StartIsBuilt()
    ensures var h0 := NewHeap(3, 3, None);
      var h1 := Set(h0, Vec2(1, 0), Get(h0, Vec2(1, 0)).Update(Some(Magenta)));
      var h2 := Set(h1, Vec2(2, 0), Get(h1, Vec2(2, 0)).Update(Some(Magenta)));
      var h3 := Set(h2, Vec2(0, 2), Get(h2, Vec2(0, 2)).Update(Some(Blue)));
      var h4 := Set(h3, Vec2(1, 2), Get(h3, Vec2(1, 2)).Update(Some(Blue)));
      h4 == Start()
  {
    var h0 := NewHeap(3, 3, None);
    var h1 := Set(h0, Vec2(1, 0), Get(h0, Vec2(1, 0)).Update(Some(Magenta)));
    var h2 := Set(h1, Vec2(2, 0), Get(h1, Vec2(2, 0)).Update(Some(Magenta)));
    var h3 := Set(h2, Vec2(0, 2), Get(h2, Vec2(0, 2)).Update(Some(Blue)));
    var h4 := Set(h3, Vec2(1, 2), Get(h3, Vec2(1, 2)).Update(Some(Blue)));
    forall x | 0 <= x < 3
      ensures h4[x] == Start()[x]
    {
    }
  }

  /** Only the magenta blocks hang above an exploded cell. */
  lemma StartUnsupported()
    ensures Unsupported(Start(), Exploded()) == [Vec2(1, 0), Vec2(2, 0)]
  {
    var g := Start();
    var o1 := [Vec2(0, 0)];
    var o2 := o1 + [Vec2(0, 1)];
    var o3 := o2 + [Vec2(1, 1)];
    var o4 := o3 + [Vec2(2, 1)];
    assert o1[..0] == [] && o2[..1] == o1 && o3[..2] == o2 && o4[..3] == o3;
    assert Exploded()[..4] == o4;
    assert Unsupported(g, o1) == [];
    assert Unsupported(g, o2) == [];
    assert Unsupported(g, o3) == [Vec2(1, 0)];
    assert Unsupported(g, o4) == [Vec2(1, 0), Vec2(2, 0)];
  }

  /** `collect_dropping_at` returns the two magenta blocks, both in row 0. */
  lemma StartDropping()
    ensures Dropping(Start(), Exploded()) == [Vec2(1, 0), Vec2(2, 0)]
  {
    StartUnsupported();
    assert SortByRow([Vec2(2, 0)]) == [Vec2(2, 0)];
  }

  /** The heap halfway through the first pass: the magenta block of column 1 has dropped. */
  function HalfPass(): Grid
  {
    [[E, E, B], [E, P, B], [P, E, E]]
  }

  /** A drop that moves the block at `o` into the empty cell below it. */
  lemma Moves(g: Grid, o: Vec2, h: Grid)
    requires Rectangular(g) && InGrid(g, o) && o.y + 1 < Rows(g)
    requires Get(g, Vec2(o.x, o.y + 1)).Empty() && !Get(g, o).exploding && |h| == |g|
    requires forall x :: 0 <= x < |g| ==> h[x] == Set(Set(g, o, E), Vec2(o.x, o.y + 1), Get(g, o))[x]
    ensures DropOne(g, o) == Drop(h, Vec2(o.x, o.y + 1), true)
  {
  }

  lemma FirstDrop()
    ensures DropOne(Start(), Vec2(1, 0)) == Drop(HalfPass(), Vec2(1, 1), true)
  {
    var g := Set(Set(Start(), Vec2(1, 0), E), Vec2(1, 1), P);
    forall x | 0 <= x < 3
      ensures HalfPass()[x] == g[x]
    {
    }
    Moves(Start(), Vec2(1, 0), HalfPass());
  }

  lemma SecondDrop()
    ensures DropOne(HalfPass(), Vec2(2, 0)) == Drop(FirstPass(), Vec2(2, 1), true)
  {
    var g := Set(Set(HalfPass(), Vec2(2, 0), E), Vec2(2, 1), P);
    forall x | 0 <= x < 3
      ensures FirstPass()[x] == g[x]
    {
    }
    Moves(HalfPass(), Vec2(2, 0), FirstPass());
  }

  lemma ThirdDrop()
    ensures DropOne(FirstPass(), Vec2(2, 1)) == Drop(Settled(), Vec2(2, 2), true)
  {
    var g := Set(Set(FirstPass(), Vec2(2, 1), E), Vec2(2, 2), P);
    forall x | 0 <= x < 3
      ensures Settled()[x] == g[x]
    {
    }
    Moves(FirstPass(), Vec2(2, 1), Settled());
  }

  /** A pass over one origin is the drop there. */
  lemma PassOfOne(g: Grid, a: Vec2)
    requires Rectangular(g) && InGrid(g, a)
    ensures AllInGrid(g, [a])
    ensures var d := DropOne(g, a); DropPass(g, [a]) == Pass(d.grid, [d.at], d.moved)
  {
    assert [a][..0] == [];
    var d := DropOne(g, a);
    assert [] + [d.at] == [d.at];
  }

  /** A pass over two origins is the drop at the first followed by the drop at the second. */
  lemma PassOfTwo(g: Grid, a: Vec2, b: Vec2)
    requires Rectangular(g) && InGrid(g, a) && InGrid(g, b)
    ensures AllInGrid(g, [a, b])
    ensures var d := DropOne(g, a); var e := DropOne(d.grid, b);
      DropPass(g, [a, b]) == Pass(e.grid, [d.at, e.at], d.moved || e.moved)
  {
    assert [a, b][..1] == [a];
    PassOfOne(g, a);
  }

  /** The first pass moves both magenta blocks down one row. */
  lemma FirstPassDrops()
    ensures DropPass(Start(), [Vec2(1, 0), Vec2(2, 0)]) == Pass(FirstPass(), [Vec2(1, 1), Vec2(2, 1)], true)
  {
    PassOfTwo(Start(), Vec2(1, 0), Vec2(2, 0));
    FirstDrop();
    SecondDrop();
  }

  /** The second pass moves only the magenta block of column 2. */
  lemma SecondPassDrops()
    ensures DropPass(FirstPass(), [Vec2(1, 1), Vec2(2, 1)]) == Pass(Settled(), [Vec2(1, 1), Vec2(2, 2)], true)
  {
    PassOfTwo(FirstPass(), Vec2(1, 1), Vec2(2, 1));
    assert DropOne(FirstPass(), Vec2(1, 1)) == Drop(FirstPass(), Vec2(1, 1), false);
    ThirdDrop();
  }

  /** The third pass finds every block resting on another or on the floor. */
  lemma ThirdPassRests()
    ensures DropPass(Settled(), [Vec2(1, 1), Vec2(2, 2)]) == Pass(Settled(), [Vec2(1, 1), Vec2(2, 2)], false)
  {
    PassOfTwo(Settled(), Vec2(1, 1), Vec2(2, 2));
    assert DropOne(Settled(), Vec2(1, 1)) == Drop(Settled(), Vec2(1, 1), false);
    assert DropOne(Settled(), Vec2(2, 2)) == Drop(Settled(), Vec2(2, 2), false);
  }

  /** Settling the second pass's result takes one more, idle, pass. */
  lemma SettleAfterSecond()
    ensures Settle(Settled(), [Vec2(1, 1), Vec2(2, 2)]) == Outcome(Settled(), [Vec2(1, 1), Vec2(2, 2)], 0)
  {
    ThirdPassRests();
  }

  /** Settling the first pass's result takes one dropping pass. */
  lemma SettleAfterFirst()
    ensures Settle(FirstPass(), [Vec2(1, 1), Vec2(2, 1)]) == Outcome(Settled(), [Vec2(1, 1), Vec2(2, 2)], 1)
  {
    SecondPassDrops();
    SettleAfterSecond();
  }

  /**
   * `test_update_dropping_at`: repeating passes until one drops nothing takes
   * two dropping passes and leaves the layout the test checks.
   */
  lemma DroppingSettles()
    ensures Settle(Start(), [Vec2(1, 0), Vec2(2, 0)]) == Outcome(Settled(), [Vec2(1, 1), Vec2(2, 2)], 2)
    ensures var g := Settle(Start(), [Vec2(1, 0), Vec2(2, 0)]).grid;
      && Get(g, Vec2(0, 0)).Empty() && Get(g, Vec2(1, 0)).Empty() && Get(g, Vec2(2, 0)).Empty()
      && Get(g, Vec2(0, 1)).Empty() && Get(g, Vec2(2, 1)).Empty()
      && !Get(g, Vec2(1, 1)).Empty() && !Get(g, Vec2(0, 2)).Empty()
      && !Get(g, Vec2(1, 2)).Empty() && !Get(g, Vec2(2, 2)).Empty()
  {
    FirstPassDrops();
    SettleAfterFirst();
  }
}
