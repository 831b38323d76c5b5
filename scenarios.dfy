/**
 * The pit's unit tests for `collect_matching_at`, `collect_dropping_at` and
 * `update_dropping_at`, restated on their 3 × 3 heaps. Each scan is pinned down
 * by `RayIs`, one axis per lemma; the matches of each origin and then the
 * collected cells follow in the order the source builds them.
 */
module Scenarios {
  import opened Geometry
  import opened Blocks
  import opened Heaps
  import opened Matching
  import opened Gravity

  const E: Block := Block(None, false)
  const B: Block := Block(Some(Blue), false)
  const P: Block := Block(Some(Magenta), false)
  const NoCells: seq<Vec2> := []

  /** One more cell for `AddNew`: appended unless already present. */
  lemma AddNewStep(acc: seq<Vec2>, s: seq<Vec2>, e: Vec2)
    ensures AddNew(acc, s + [e]) == if e in AddNew(acc, s) then AddNew(acc, s) else AddNew(acc, s) + [e]
  {
    assert (s + [e])[..|s|] == s;
  }

  /** Cells all already present leave the accumulator as it is. */
  lemma {:induction false} AddNewCovered(acc: seq<Vec2>, s: seq<Vec2>)
    requires forall k :: 0 <= k < |s| ==> s[k] in acc
    ensures AddNew(acc, s) == acc
  {
    if s != [] {
      AddNewCovered(acc, s[..|s| - 1]);
    }
  }

  /** Distinct cells none of which is present are appended in order. */
  lemma {:induction false} AddNewFresh(acc: seq<Vec2>, s: seq<Vec2>)
    requires NoDuplicates(s)
    requires forall k :: 0 <= k < |s| ==> s[k] !in acc
    ensures AddNew(acc, s) == acc + s
  {
    if s != [] {
      var front := s[..|s| - 1];
      AddNewFresh(acc, front);
      assert s[|s| - 1] !in acc + front;
      assert s == front + [s[|s| - 1]];
    }
  }

  /** A single list, each cell once, is itself. */
  lemma UnionOne(m: seq<Vec2>)
    requires NoDuplicates(m)
    ensures Union([m]) == m
  {
    UnionStep([], m);
    assert [] + [m] == [m];
    AddNewFresh(NoCells, m);
  }

  /** Collecting at a single origin gives its matches as they are. */
  lemma CollectedAtOne(g: Grid, a: Vec2)
    requires Rectangular(g) && InGrid(g, a)
    ensures AllInGrid(g, [a])
    ensures CollectedMatches(g, [a]) == MatchesAt(g, a)
  {
    var m := MatchesAt(g, a);
    var ms := MatchLists(g, [a]);
    assert ms[0] == m;
    assert ms == [m];
    MatchesAtShape(g, a);
    UnionOne(m);
  }

  /** Collecting at two origins merges their two match lists. */
  lemma MatchLists2(g: Grid, a: Vec2, b: Vec2)
    requires Rectangular(g) && InGrid(g, a) && InGrid(g, b)
    ensures AllInGrid(g, [a, b])
    ensures CollectedMatches(g, [a, b]) == Union([MatchesAt(g, a), MatchesAt(g, b)])
  {
    var os := [a, b];
    var ms := MatchLists(g, os);
    assert ms[0] == MatchesAt(g, a);
    assert ms[1] == MatchesAt(g, b);
    assert ms == [MatchesAt(g, a), MatchesAt(g, b)];
  }

  /** Collecting at three origins merges their three match lists. */
  lemma MatchLists3(g: Grid, a: Vec2, b: Vec2, c: Vec2)
    requires Rectangular(g) && InGrid(g, a) && InGrid(g, b) && InGrid(g, c)
    ensures AllInGrid(g, [a, b, c])
    ensures CollectedMatches(g, [a, b, c]) == Union([MatchesAt(g, a), MatchesAt(g, b), MatchesAt(g, c)])
  {
    var os := [a, b, c];
    var ms := MatchLists(g, os);
    assert ms[0] == MatchesAt(g, a);
    assert ms[1] == MatchesAt(g, b);
    assert ms[2] == MatchesAt(g, c);
    assert ms == [MatchesAt(g, a), MatchesAt(g, b), MatchesAt(g, c)];
  }

  /** One more list for `Union`: its unseen cells are appended. */
  lemma UnionStep(ms: seq<seq<Vec2>>, m: seq<Vec2>)
    ensures Union(ms + [m]) == AddNew(Union(ms), m)
  {
    assert (ms + [m])[..|ms|] == ms;
  }

  /** The heap of `test_collect_matching_empty`: blue blocks at (0, 0) and (0, 1). */
  function TwoBlue(): Grid
  {
    [[B, B, E], [E, E, E], [E, E, E]]
  }

  /** The heap is the one the test builds. */
  lemma TwoBlueIsBuilt()
    ensures TwoBlue() == Set(Set(NewHeap(3, 3, None), Vec2(0, 0), Block.New(Some(Blue))), Vec2(0, 1), Block.New(Some(Blue)))
  {
    var h := Set(Set(NewHeap(3, 3, None), Vec2(0, 0), Block.New(Some(Blue))), Vec2(0, 1), Block.New(Some(Blue)));
    forall x | 0 <= x < 3
      ensures h[x] == TwoBlue()[x]
    {
    }
  }

  lemma TwoBlue00North()
    ensures Ray(TwoBlue(), Vec2(0, 0), North, 1) == NoCells
  {
    RayIs(TwoBlue(), Vec2(0, 0), North, NoCells);
  }

  lemma TwoBlue00South()
    ensures Ray(TwoBlue(), Vec2(0, 0), South, 1) == [Vec2(0, 1)]
  {
    assert !Get(TwoBlue(), Vec2(0, 2)).Eq(Get(TwoBlue(), Vec2(0, 0)));
    RayIs(TwoBlue(), Vec2(0, 0), South, [Vec2(0, 1)]);
  }

  lemma TwoBlue00NxS()
    ensures Candidates(TwoBlue(), Vec2(0, 0), NxS) == [Vec2(0, 1)]
  {
    TwoBlue00North();
    TwoBlue00South();
  }

  lemma TwoBlue00West()
    ensures Ray(TwoBlue(), Vec2(0, 0), West, 1) == NoCells
  {
    RayIs(TwoBlue(), Vec2(0, 0), West, NoCells);
  }

  lemma TwoBlue00East()
    ensures Ray(TwoBlue(), Vec2(0, 0), East, 1) == NoCells
  {
    assert !Get(TwoBlue(), Vec2(1, 0)).Eq(Get(TwoBlue(), Vec2(0, 0)));
    RayIs(TwoBlue(), Vec2(0, 0), East, NoCells);
  }

  lemma TwoBlue00ExW()
    ensures Candidates(TwoBlue(), Vec2(0, 0), ExW) == NoCells
  {
    TwoBlue00West();
    TwoBlue00East();
  }

  lemma TwoBlue00NorthEast()
    ensures Ray(TwoBlue(), Vec2(0, 0), NorthEast, 1) == NoCells
  {
    RayIs(TwoBlue(), Vec2(0, 0), NorthEast, NoCells);
  }

  lemma TwoBlue00SouthWest()
    ensures Ray(TwoBlue(), Vec2(0, 0), SouthWest, 1) == NoCells
  {
    RayIs(TwoBlue(), Vec2(0, 0), SouthWest, NoCells);
  }

  lemma TwoBlue00NExSW()
    ensures Candidates(TwoBlue(), Vec2(0, 0), NExSW) == NoCells
  {
    TwoBlue00NorthEast();
    TwoBlue00SouthWest();
  }

  lemma TwoBlue00NorthWest()
    ensures Ray(TwoBlue(), Vec2(0, 0), NorthWest, 1) == NoCells
  {
    RayIs(TwoBlue(), Vec2(0, 0), NorthWest, NoCells);
  }

  lemma TwoBlue00SouthEast()
    ensures Ray(TwoBlue(), Vec2(0, 0), SouthEast, 1) == NoCells
  {
    assert !Get(TwoBlue(), Vec2(1, 1)).Eq(Get(TwoBlue(), Vec2(0, 0)));
    RayIs(TwoBlue(), Vec2(0, 0), SouthEast, NoCells);
  }

  lemma TwoBlue00NWxSE()
    ensures Candidates(TwoBlue(), Vec2(0, 0), NWxSE) == NoCells
  {
    TwoBlue00NorthWest();
    TwoBlue00SouthEast();
  }

  /** What `matching_at` collects at Vec2(0, 0). */
  lemma TwoBlue00Matches()
    ensures MatchesAt(TwoBlue(), Vec2(0, 0)) == NoCells
  {
    TwoBlue00NxS();
    TwoBlue00ExW();
    TwoBlue00NExSW();
    TwoBlue00NWxSE();
  }

  lemma TwoBlue01North()
    ensures Ray(TwoBlue(), Vec2(0, 1), North, 1) == [Vec2(0, 0)]
  {
    RayIs(TwoBlue(), Vec2(0, 1), North, [Vec2(0, 0)]);
  }

  lemma TwoBlue01South()
    ensures Ray(TwoBlue(), Vec2(0, 1), South, 1) == NoCells
  {
    assert !Get(TwoBlue(), Vec2(0, 2)).Eq(Get(TwoBlue(), Vec2(0, 1)));
    RayIs(TwoBlue(), Vec2(0, 1), South, NoCells);
  }

  lemma TwoBlue01NxS()
    ensures Candidates(TwoBlue(), Vec2(0, 1), NxS) == [Vec2(0, 0)]
  {
    TwoBlue01North();
    TwoBlue01South();
  }

  lemma TwoBlue01West()
    ensures Ray(TwoBlue(), Vec2(0, 1), West, 1) == NoCells
  {
    RayIs(TwoBlue(), Vec2(0, 1), West, NoCells);
  }

  lemma TwoBlue01East()
    ensures Ray(TwoBlue(), Vec2(0, 1), East, 1) == NoCells
  {
    assert !Get(TwoBlue(), Vec2(1, 1)).Eq(Get(TwoBlue(), Vec2(0, 1)));
    RayIs(TwoBlue(), Vec2(0, 1), East, NoCells);
  }

  lemma TwoBlue01ExW()
    ensures Candidates(TwoBlue(), Vec2(0, 1), ExW) == NoCells
  {
    TwoBlue01West();
    TwoBlue01East();
  }

  lemma TwoBlue01NorthEast()
    ensures Ray(TwoBlue(), Vec2(0, 1), NorthEast, 1) == NoCells
  {
    assert !Get(TwoBlue(), Vec2(1, 0)).Eq(Get(TwoBlue(), Vec2(0, 1)));
    RayIs(TwoBlue(), Vec2(0, 1), NorthEast, NoCells);
  }

  lemma TwoBlue01SouthWest()
    ensures Ray(TwoBlue(), Vec2(0, 1), SouthWest, 1) == NoCells
  {
    RayIs(TwoBlue(), Vec2(0, 1), SouthWest, NoCells);
  }

  lemma TwoBlue01NExSW()
    ensures Candidates(TwoBlue(), Vec2(0, 1), NExSW) == NoCells
  {
    TwoBlue01NorthEast();
    TwoBlue01SouthWest();
  }

  lemma TwoBlue01NorthWest()
    ensures Ray(TwoBlue(), Vec2(0, 1), NorthWest, 1) == NoCells
  {
    RayIs(TwoBlue(), Vec2(0, 1), NorthWest, NoCells);
  }

  lemma TwoBlue01SouthEast()
    ensures Ray(TwoBlue(), Vec2(0, 1), SouthEast, 1) == NoCells
  {
    assert !Get(TwoBlue(), Vec2(1, 2)).Eq(Get(TwoBlue(), Vec2(0, 1)));
    RayIs(TwoBlue(), Vec2(0, 1), SouthEast, NoCells);
  }

  lemma TwoBlue01NWxSE()
    ensures Candidates(TwoBlue(), Vec2(0, 1), NWxSE) == NoCells
  {
    TwoBlue01NorthWest();
    TwoBlue01SouthEast();
  }

  /** What `matching_at` collects at Vec2(0, 1). */
  lemma TwoBlue01Matches()
    ensures MatchesAt(TwoBlue(), Vec2(0, 1)) == NoCells
  {
    TwoBlue01NxS();
    TwoBlue01ExW();
    TwoBlue01NExSW();
    TwoBlue01NWxSE();
  }

  /** Merging the matches of the first 1 origin(s), each cell once. */
  lemma TwoBlueUnion0()
    ensures Union([NoCells]) == NoCells
  {
    UnionStep([], NoCells);
    assert [NoCells] == [] + [NoCells];
  }

  /** Merging the matches of the first 2 origin(s), each cell once. */
  lemma TwoBlueUnion1()
    ensures Union([NoCells, NoCells]) == NoCells
  {
    TwoBlueUnion0();
    UnionStep([NoCells], NoCells);
    assert [NoCells, NoCells] == [NoCells] + [NoCells];
  }

  /** `collect_matching_at` at the test's origins. */
  lemma TwoBlueCollected()
    ensures CollectedMatches(TwoBlue(), [Vec2(0, 0), Vec2(0, 1)]) == NoCells
  {
    MatchLists2(TwoBlue(), Vec2(0, 0), Vec2(0, 1));
    TwoBlue00Matches();
    TwoBlue01Matches();
    TwoBlueUnion1();
  }

  /** The heap of `test_collect_matching_north_south`: column 0 blue. */
  function Column(): Grid
  {
    [[B, B, B], [E, E, E], [E, E, E]]
  }

  /** The heap is the one the test builds. */
  lemma ColumnIsBuilt()
    ensures Column() == Set(Set(Set(NewHeap(3, 3, None), Vec2(0, 0), Block.New(Some(Blue))), Vec2(0, 1), Block.New(Some(Blue))), Vec2(0, 2), Block.New(Some(Blue)))
  {
    var h := Set(Set(Set(NewHeap(3, 3, None), Vec2(0, 0), Block.New(Some(Blue))), Vec2(0, 1), Block.New(Some(Blue))), Vec2(0, 2), Block.New(Some(Blue)));
    forall x | 0 <= x < 3
      ensures h[x] == Column()[x]
    {
    }
  }

  lemma Column00North()
    ensures Ray(Column(), Vec2(0, 0), North, 1) == NoCells
  {
    RayIs(Column(), Vec2(0, 0), North, NoCells);
  }

  lemma Column00South()
    ensures Ray(Column(), Vec2(0, 0), South, 1) == [Vec2(0, 1), Vec2(0, 2)]
  {
    RayIs(Column(), Vec2(0, 0), South, [Vec2(0, 1), Vec2(0, 2)]);
  }

  lemma Column00NxS()
    ensures Candidates(Column(), Vec2(0, 0), NxS) == [Vec2(0, 1), Vec2(0, 2)]
  {
    Column00North();
    Column00South();
  }

  lemma Column00West()
    ensures Ray(Column(), Vec2(0, 0), West, 1) == NoCells
  {
    RayIs(Column(), Vec2(0, 0), West, NoCells);
  }

  lemma Column00East()
    ensures Ray(Column(), Vec2(0, 0), East, 1) == NoCells
  {
    assert !Get(Column(), Vec2(1, 0)).Eq(Get(Column(), Vec2(0, 0)));
    RayIs(Column(), Vec2(0, 0), East, NoCells);
  }

  lemma Column00ExW()
    ensures Candidates(Column(), Vec2(0, 0), ExW) == NoCells
  {
    Column00West();
    Column00East();
  }

  lemma Column00NorthEast()
    ensures Ray(Column(), Vec2(0, 0), NorthEast, 1) == NoCells
  {
    RayIs(Column(), Vec2(0, 0), NorthEast, NoCells);
  }

  lemma Column00SouthWest()
    ensures Ray(Column(), Vec2(0, 0), SouthWest, 1) == NoCells
  {
    RayIs(Column(), Vec2(0, 0), SouthWest, NoCells);
  }

  lemma Column00NExSW()
    ensures Candidates(Column(), Vec2(0, 0), NExSW) == NoCells
  {
    Column00NorthEast();
    Column00SouthWest();
  }

  lemma Column00NorthWest()
    ensures Ray(Column(), Vec2(0, 0), NorthWest, 1) == NoCells
  {
    RayIs(Column(), Vec2(0, 0), NorthWest, NoCells);
  }

  lemma Column00SouthEast()
    ensures Ray(Column(), Vec2(0, 0), SouthEast, 1) == NoCells
  {
    assert !Get(Column(), Vec2(1, 1)).Eq(Get(Column(), Vec2(0, 0)));
    RayIs(Column(), Vec2(0, 0), SouthEast, NoCells);
  }

  lemma Column00NWxSE()
    ensures Candidates(Column(), Vec2(0, 0), NWxSE) == NoCells
  {
    Column00NorthWest();
    Column00SouthEast();
  }

  /** What `matching_at` collects at Vec2(0, 0). */
  lemma Column00Matches()
    ensures MatchesAt(Column(), Vec2(0, 0)) == [Vec2(0, 1), Vec2(0, 2), Vec2(0, 0)]
  {
    Column00NxS();
    Column00ExW();
    Column00NExSW();
    Column00NWxSE();
  }

  lemma Column01North()
    ensures Ray(Column(), Vec2(0, 1), North, 1) == [Vec2(0, 0)]
  {
    RayIs(Column(), Vec2(0, 1), North, [Vec2(0, 0)]);
  }

  lemma Column01South()
    ensures Ray(Column(), Vec2(0, 1), South, 1) == [Vec2(0, 2)]
  {
    RayIs(Column(), Vec2(0, 1), South, [Vec2(0, 2)]);
  }

  lemma Column01NxS()
    ensures Candidates(Column(), Vec2(0, 1), NxS) == [Vec2(0, 0), Vec2(0, 2)]
  {
    Column01North();
    Column01South();
  }

  lemma Column01West()
    ensures Ray(Column(), Vec2(0, 1), West, 1) == NoCells
  {
    RayIs(Column(), Vec2(0, 1), West, NoCells);
  }

  lemma Column01East()
    ensures Ray(Column(), Vec2(0, 1), East, 1) == NoCells
  {
    assert !Get(Column(), Vec2(1, 1)).Eq(Get(Column(), Vec2(0, 1)));
    RayIs(Column(), Vec2(0, 1), East, NoCells);
  }

  lemma Column01ExW()
    ensures Candidates(Column(), Vec2(0, 1), ExW) == NoCells
  {
    Column01West();
    Column01East();
  }

  lemma Column01NorthEast()
    ensures Ray(Column(), Vec2(0, 1), NorthEast, 1) == NoCells
  {
    assert !Get(Column(), Vec2(1, 0)).Eq(Get(Column(), Vec2(0, 1)));
    RayIs(Column(), Vec2(0, 1), NorthEast, NoCells);
  }

  lemma Column01SouthWest()
    ensures Ray(Column(), Vec2(0, 1), SouthWest, 1) == NoCells
  {
    RayIs(Column(), Vec2(0, 1), SouthWest, NoCells);
  }

  lemma Column01NExSW()
    ensures Candidates(Column(), Vec2(0, 1), NExSW) == NoCells
  {
    Column01NorthEast();
    Column01SouthWest();
  }

  lemma Column01NorthWest()
    ensures Ray(Column(), Vec2(0, 1), NorthWest, 1) == NoCells
  {
    RayIs(Column(), Vec2(0, 1), NorthWest, NoCells);
  }

  lemma Column01SouthEast()
    ensures Ray(Column(), Vec2(0, 1), SouthEast, 1) == NoCells
  {
    assert !Get(Column(), Vec2(1, 2)).Eq(Get(Column(), Vec2(0, 1)));
    RayIs(Column(), Vec2(0, 1), SouthEast, NoCells);
  }

  lemma Column01NWxSE()
    ensures Candidates(Column(), Vec2(0, 1), NWxSE) == NoCells
  {
    Column01NorthWest();
    Column01SouthEast();
  }

  /** What `matching_at` collects at Vec2(0, 1). */
  lemma Column01Matches()
    ensures MatchesAt(Column(), Vec2(0, 1)) == [Vec2(0, 0), Vec2(0, 2), Vec2(0, 1)]
  {
    Column01NxS();
    Column01ExW();
    Column01NExSW();
    Column01NWxSE();
  }

  lemma Column02North()
    ensures Ray(Column(), Vec2(0, 2), North, 1) == [Vec2(0, 1), Vec2(0, 0)]
  {
    RayIs(Column(), Vec2(0, 2), North, [Vec2(0, 1), Vec2(0, 0)]);
  }

  lemma Column02South()
    ensures Ray(Column(), Vec2(0, 2), South, 1) == NoCells
  {
    RayIs(Column(), Vec2(0, 2), South, NoCells);
  }

  lemma Column02NxS()
    ensures Candidates(Column(), Vec2(0, 2), NxS) == [Vec2(0, 1), Vec2(0, 0)]
  {
    Column02North();
    Column02South();
  }

  lemma Column02West()
    ensures Ray(Column(), Vec2(0, 2), West, 1) == NoCells
  {
    RayIs(Column(), Vec2(0, 2), West, NoCells);
  }

  lemma Column02East()
    ensures Ray(Column(), Vec2(0, 2), East, 1) == NoCells
  {
    assert !Get(Column(), Vec2(1, 2)).Eq(Get(Column(), Vec2(0, 2)));
    RayIs(Column(), Vec2(0, 2), East, NoCells);
  }

  lemma Column02ExW()
    ensures Candidates(Column(), Vec2(0, 2), ExW) == NoCells
  {
    Column02West();
    Column02East();
  }

  lemma Column02NorthEast()
    ensures Ray(Column(), Vec2(0, 2), NorthEast, 1) == NoCells
  {
    assert !Get(Column(), Vec2(1, 1)).Eq(Get(Column(), Vec2(0, 2)));
    RayIs(Column(), Vec2(0, 2), NorthEast, NoCells);
  }

  lemma Column02SouthWest()
    ensures Ray(Column(), Vec2(0, 2), SouthWest, 1) == NoCells
  {
    RayIs(Column(), Vec2(0, 2), SouthWest, NoCells);
  }

  lemma Column02NExSW()
    ensures Candidates(Column(), Vec2(0, 2), NExSW) == NoCells
  {
    Column02NorthEast();
    Column02SouthWest();
  }

  lemma Column02NorthWest()
    ensures Ray(Column(), Vec2(0, 2), NorthWest, 1) == NoCells
  {
    RayIs(Column(), Vec2(0, 2), NorthWest, NoCells);
  }

  lemma Column02SouthEast()
    ensures Ray(Column(), Vec2(0, 2), SouthEast, 1) == NoCells
  {
    RayIs(Column(), Vec2(0, 2), SouthEast, NoCells);
  }

  lemma Column02NWxSE()
    ensures Candidates(Column(), Vec2(0, 2), NWxSE) == NoCells
  {
    Column02NorthWest();
    Column02SouthEast();
  }

  /** What `matching_at` collects at Vec2(0, 2). */
  lemma Column02Matches()
    ensures MatchesAt(Column(), Vec2(0, 2)) == [Vec2(0, 1), Vec2(0, 0), Vec2(0, 2)]
  {
    Column02NxS();
    Column02ExW();
    Column02NExSW();
    Column02NWxSE();
  }

  /** Merging the matches of the first 1 origin(s), each cell once. */
  lemma ColumnUnion0()
    ensures Union([[Vec2(0, 1), Vec2(0, 2), Vec2(0, 0)]]) == [Vec2(0, 1), Vec2(0, 2), Vec2(0, 0)]
  {
    UnionStep([], [Vec2(0, 1), Vec2(0, 2), Vec2(0, 0)]);
    assert [[Vec2(0, 1), Vec2(0, 2), Vec2(0, 0)]] == [] + [[Vec2(0, 1), Vec2(0, 2), Vec2(0, 0)]];
    AddNewFresh(NoCells, [Vec2(0, 1), Vec2(0, 2), Vec2(0, 0)]);
  }

  /** Merging the matches of the first 2 origin(s), each cell once. */
  lemma ColumnUnion1()
    ensures Union([[Vec2(0, 1), Vec2(0, 2), Vec2(0, 0)], [Vec2(0, 0), Vec2(0, 2), Vec2(0, 1)]]) == [Vec2(0, 1), Vec2(0, 2), Vec2(0, 0)]
  {
    ColumnUnion0();
    UnionStep([[Vec2(0, 1), Vec2(0, 2), Vec2(0, 0)]], [Vec2(0, 0), Vec2(0, 2), Vec2(0, 1)]);
    assert [[Vec2(0, 1), Vec2(0, 2), Vec2(0, 0)], [Vec2(0, 0), Vec2(0, 2), Vec2(0, 1)]] == [[Vec2(0, 1), Vec2(0, 2), Vec2(0, 0)]] + [[Vec2(0, 0), Vec2(0, 2), Vec2(0, 1)]];
    AddNewCovered([Vec2(0, 1), Vec2(0, 2), Vec2(0, 0)], [Vec2(0, 0), Vec2(0, 2), Vec2(0, 1)]);
  }

  /** Merging the matches of the first 3 origin(s), each cell once. */
  lemma ColumnUnion2()
    ensures Union([[Vec2(0, 1), Vec2(0, 2), Vec2(0, 0)], [Vec2(0, 0), Vec2(0, 2), Vec2(0, 1)], [Vec2(0, 1), Vec2(0, 0), Vec2(0, 2)]]) == [Vec2(0, 1), Vec2(0, 2), Vec2(0, 0)]
  {
    ColumnUnion1();
    UnionStep([[Vec2(0, 1), Vec2(0, 2), Vec2(0, 0)], [Vec2(0, 0), Vec2(0, 2), Vec2(0, 1)]], [Vec2(0, 1), Vec2(0, 0), Vec2(0, 2)]);
    assert [[Vec2(0, 1), Vec2(0, 2), Vec2(0, 0)], [Vec2(0, 0), Vec2(0, 2), Vec2(0, 1)], [Vec2(0, 1), Vec2(0, 0), Vec2(0, 2)]] == [[Vec2(0, 1), Vec2(0, 2), Vec2(0, 0)], [Vec2(0, 0), Vec2(0, 2), Vec2(0, 1)]] + [[Vec2(0, 1), Vec2(0, 0), Vec2(0, 2)]];
    AddNewCovered([Vec2(0, 1), Vec2(0, 2), Vec2(0, 0)], [Vec2(0, 1), Vec2(0, 0), Vec2(0, 2)]);
  }

  /** `collect_matching_at` at the test's origins. */
  lemma ColumnCollected()
    ensures CollectedMatches(Column(), [Vec2(0, 0), Vec2(0, 1), Vec2(0, 2)]) == [Vec2(0, 1), Vec2(0, 2), Vec2(0, 0)]
  {
    MatchLists3(Column(), Vec2(0, 0), Vec2(0, 1), Vec2(0, 2));
    Column00Matches();
    Column01Matches();
    Column02Matches();
    ColumnUnion2();
  }

  /** The heap of `test_collect_matching_east_west`: row 1 blue. */
  function Row(): Grid
  {
    [[E, B, E], [E, B, E], [E, B, E]]
  }

  /** The heap is the one the test builds. */
  lemma RowIsBuilt()
    ensures Row() == Set(Set(Set(NewHeap(3, 3, None), Vec2(0, 1), Block.New(Some(Blue))), Vec2(1, 1), Block.New(Some(Blue))), Vec2(2, 1), Block.New(Some(Blue)))
  {
    var h := Set(Set(Set(NewHeap(3, 3, None), Vec2(0, 1), Block.New(Some(Blue))), Vec2(1, 1), Block.New(Some(Blue))), Vec2(2, 1), Block.New(Some(Blue)));
    forall x | 0 <= x < 3
      ensures h[x] == Row()[x]
    {
    }
  }

  lemma Row01North()
    ensures Ray(Row(), Vec2(0, 1), North, 1) == NoCells
  {
    assert !Get(Row(), Vec2(0, 0)).Eq(Get(Row(), Vec2(0, 1)));
    RayIs(Row(), Vec2(0, 1), North, NoCells);
  }

  lemma Row01South()
    ensures Ray(Row(), Vec2(0, 1), South, 1) == NoCells
  {
    assert !Get(Row(), Vec2(0, 2)).Eq(Get(Row(), Vec2(0, 1)));
    RayIs(Row(), Vec2(0, 1), South, NoCells);
  }

  lemma Row01NxS()
    ensures Candidates(Row(), Vec2(0, 1), NxS) == NoCells
  {
    Row01North();
    Row01South();
  }

  lemma Row01West()
    ensures Ray(Row(), Vec2(0, 1), West, 1) == NoCells
  {
    RayIs(Row(), Vec2(0, 1), West, NoCells);
  }

  lemma Row01East()
    ensures Ray(Row(), Vec2(0, 1), East, 1) == [Vec2(1, 1), Vec2(2, 1)]
  {
    RayIs(Row(), Vec2(0, 1), East, [Vec2(1, 1), Vec2(2, 1)]);
  }

  lemma Row01ExW()
    ensures Candidates(Row(), Vec2(0, 1), ExW) == [Vec2(1, 1), Vec2(2, 1)]
  {
    Row01West();
    Row01East();
  }

  lemma Row01NorthEast()
    ensures Ray(Row(), Vec2(0, 1), NorthEast, 1) == NoCells
  {
    assert !Get(Row(), Vec2(1, 0)).Eq(Get(Row(), Vec2(0, 1)));
    RayIs(Row(), Vec2(0, 1), NorthEast, NoCells);
  }

  lemma Row01SouthWest()
    ensures Ray(Row(), Vec2(0, 1), SouthWest, 1) == NoCells
  {
    RayIs(Row(), Vec2(0, 1), SouthWest, NoCells);
  }

  lemma Row01NExSW()
    ensures Candidates(Row(), Vec2(0, 1), NExSW) == NoCells
  {
    Row01NorthEast();
    Row01SouthWest();
  }

  lemma Row01NorthWest()
    ensures Ray(Row(), Vec2(0, 1), NorthWest, 1) == NoCells
  {
    RayIs(Row(), Vec2(0, 1), NorthWest, NoCells);
  }

  lemma Row01SouthEast()
    ensures Ray(Row(), Vec2(0, 1), SouthEast, 1) == NoCells
  {
    assert !Get(Row(), Vec2(1, 2)).Eq(Get(Row(), Vec2(0, 1)));
    RayIs(Row(), Vec2(0, 1), SouthEast, NoCells);
  }

  lemma Row01NWxSE()
    ensures Candidates(Row(), Vec2(0, 1), NWxSE) == NoCells
  {
    Row01NorthWest();
    Row01SouthEast();
  }

  /** What `matching_at` collects at Vec2(0, 1). */
  lemma Row01Matches()
    ensures MatchesAt(Row(), Vec2(0, 1)) == [Vec2(1, 1), Vec2(2, 1), Vec2(0, 1)]
  {
    Row01NxS();
    Row01ExW();
    Row01NExSW();
    Row01NWxSE();
  }

  lemma Row11North()
    ensures Ray(Row(), Vec2(1, 1), North, 1) == NoCells
  {
    assert !Get(Row(), Vec2(1, 0)).Eq(Get(Row(), Vec2(1, 1)));
    RayIs(Row(), Vec2(1, 1), North, NoCells);
  }

  lemma Row11South()
    ensures Ray(Row(), Vec2(1, 1), South, 1) == NoCells
  {
    assert !Get(Row(), Vec2(1, 2)).Eq(Get(Row(), Vec2(1, 1)));
    RayIs(Row(), Vec2(1, 1), South, NoCells);
  }

  lemma Row11NxS()
    ensures Candidates(Row(), Vec2(1, 1), NxS) == NoCells
  {
    Row11North();
    Row11South();
  }

  lemma Row11West()
    ensures Ray(Row(), Vec2(1, 1), West, 1) == [Vec2(0, 1)]
  {
    RayIs(Row(), Vec2(1, 1), West, [Vec2(0, 1)]);
  }

  lemma Row11East()
    ensures Ray(Row(), Vec2(1, 1), East, 1) == [Vec2(2, 1)]
  {
    RayIs(Row(), Vec2(1, 1), East, [Vec2(2, 1)]);
  }

  lemma Row11ExW()
    ensures Candidates(Row(), Vec2(1, 1), ExW) == [Vec2(0, 1), Vec2(2, 1)]
  {
    Row11West();
    Row11East();
  }

  lemma Row11NorthEast()
    ensures Ray(Row(), Vec2(1, 1), NorthEast, 1) == NoCells
  {
    assert !Get(Row(), Vec2(2, 0)).Eq(Get(Row(), Vec2(1, 1)));
    RayIs(Row(), Vec2(1, 1), NorthEast, NoCells);
  }

  lemma Row11SouthWest()
    ensures Ray(Row(), Vec2(1, 1), SouthWest, 1) == NoCells
  {
    assert !Get(Row(), Vec2(0, 2)).Eq(Get(Row(), Vec2(1, 1)));
    RayIs(Row(), Vec2(1, 1), SouthWest, NoCells);
  }

  lemma Row11NExSW()
    ensures Candidates(Row(), Vec2(1, 1), NExSW) == NoCells
  {
    Row11NorthEast();
    Row11SouthWest();
  }

  lemma Row11NorthWest()
    ensures Ray(Row(), Vec2(1, 1), NorthWest, 1) == NoCells
  {
    assert !Get(Row(), Vec2(0, 0)).Eq(Get(Row(), Vec2(1, 1)));
    RayIs(Row(), Vec2(1, 1), NorthWest, NoCells);
  }

  lemma Row11SouthEast()
    ensures Ray(Row(), Vec2(1, 1), SouthEast, 1) == NoCells
  {
    assert !Get(Row(), Vec2(2, 2)).Eq(Get(Row(), Vec2(1, 1)));
    RayIs(Row(), Vec2(1, 1), SouthEast, NoCells);
  }

  lemma Row11NWxSE()
    ensures Candidates(Row(), Vec2(1, 1), NWxSE) == NoCells
  {
    Row11NorthWest();
    Row11SouthEast();
  }

  /** What `matching_at` collects at Vec2(1, 1). */
  lemma Row11Matches()
    ensures MatchesAt(Row(), Vec2(1, 1)) == [Vec2(0, 1), Vec2(2, 1), Vec2(1, 1)]
  {
    Row11NxS();
    Row11ExW();
    Row11NExSW();
    Row11NWxSE();
  }

  lemma Row21North()
    ensures Ray(Row(), Vec2(2, 1), North, 1) == NoCells
  {
    assert !Get(Row(), Vec2(2, 0)).Eq(Get(Row(), Vec2(2, 1)));
    RayIs(Row(), Vec2(2, 1), North, NoCells);
  }

  lemma Row21South()
    ensures Ray(Row(), Vec2(2, 1), South, 1) == NoCells
  {
    assert !Get(Row(), Vec2(2, 2)).Eq(Get(Row(), Vec2(2, 1)));
    RayIs(Row(), Vec2(2, 1), South, NoCells);
  }

  lemma Row21NxS()
    ensures Candidates(Row(), Vec2(2, 1), NxS) == NoCells
  {
    Row21North();
    Row21South();
  }

  lemma Row21West()
    ensures Ray(Row(), Vec2(2, 1), West, 1) == [Vec2(1, 1), Vec2(0, 1)]
  {
    RayIs(Row(), Vec2(2, 1), West, [Vec2(1, 1), Vec2(0, 1)]);
  }

  lemma Row21East()
    ensures Ray(Row(), Vec2(2, 1), East, 1) == NoCells
  {
    RayIs(Row(), Vec2(2, 1), East, NoCells);
  }

  lemma Row21ExW()
    ensures Candidates(Row(), Vec2(2, 1), ExW) == [Vec2(1, 1), Vec2(0, 1)]
  {
    Row21West();
    Row21East();
  }

  lemma Row21NorthEast()
    ensures Ray(Row(), Vec2(2, 1), NorthEast, 1) == NoCells
  {
    RayIs(Row(), Vec2(2, 1), NorthEast, NoCells);
  }

  lemma Row21SouthWest()
    ensures Ray(Row(), Vec2(2, 1), SouthWest, 1) == NoCells
  {
    assert !Get(Row(), Vec2(1, 2)).Eq(Get(Row(), Vec2(2, 1)));
    RayIs(Row(), Vec2(2, 1), SouthWest, NoCells);
  }

  lemma Row21NExSW()
    ensures Candidates(Row(), Vec2(2, 1), NExSW) == NoCells
  {
    Row21NorthEast();
    Row21SouthWest();
  }

  lemma Row21NorthWest()
    ensures Ray(Row(), Vec2(2, 1), NorthWest, 1) == NoCells
  {
    assert !Get(Row(), Vec2(1, 0)).Eq(Get(Row(), Vec2(2, 1)));
    RayIs(Row(), Vec2(2, 1), NorthWest, NoCells);
  }

  lemma Row21SouthEast()
    ensures Ray(Row(), Vec2(2, 1), SouthEast, 1) == NoCells
  {
    RayIs(Row(), Vec2(2, 1), SouthEast, NoCells);
  }

  lemma Row21NWxSE()
    ensures Candidates(Row(), Vec2(2, 1), NWxSE) == NoCells
  {
    Row21NorthWest();
    Row21SouthEast();
  }

  /** What `matching_at` collects at Vec2(2, 1). */
  lemma Row21Matches()
    ensures MatchesAt(Row(), Vec2(2, 1)) == [Vec2(1, 1), Vec2(0, 1), Vec2(2, 1)]
  {
    Row21NxS();
    Row21ExW();
    Row21NExSW();
    Row21NWxSE();
  }

  /** Merging the matches of the first 1 origin(s), each cell once. */
  lemma RowUnion0()
    ensures Union([[Vec2(1, 1), Vec2(2, 1), Vec2(0, 1)]]) == [Vec2(1, 1), Vec2(2, 1), Vec2(0, 1)]
  {
    UnionStep([], [Vec2(1, 1), Vec2(2, 1), Vec2(0, 1)]);
    assert [[Vec2(1, 1), Vec2(2, 1), Vec2(0, 1)]] == [] + [[Vec2(1, 1), Vec2(2, 1), Vec2(0, 1)]];
    AddNewFresh(NoCells, [Vec2(1, 1), Vec2(2, 1), Vec2(0, 1)]);
  }

  /** Merging the matches of the first 2 origin(s), each cell once. */
  lemma RowUnion1()
    ensures Union([[Vec2(1, 1), Vec2(2, 1), Vec2(0, 1)], [Vec2(0, 1), Vec2(2, 1), Vec2(1, 1)]]) == [Vec2(1, 1), Vec2(2, 1), Vec2(0, 1)]
  {
    RowUnion0();
    UnionStep([[Vec2(1, 1), Vec2(2, 1), Vec2(0, 1)]], [Vec2(0, 1), Vec2(2, 1), Vec2(1, 1)]);
    assert [[Vec2(1, 1), Vec2(2, 1), Vec2(0, 1)], [Vec2(0, 1), Vec2(2, 1), Vec2(1, 1)]] == [[Vec2(1, 1), Vec2(2, 1), Vec2(0, 1)]] + [[Vec2(0, 1), Vec2(2, 1), Vec2(1, 1)]];
    AddNewCovered([Vec2(1, 1), Vec2(2, 1), Vec2(0, 1)], [Vec2(0, 1), Vec2(2, 1), Vec2(1, 1)]);
  }

  /** Merging the matches of the first 3 origin(s), each cell once. */
  lemma RowUnion2()
    ensures Union([[Vec2(1, 1), Vec2(2, 1), Vec2(0, 1)], [Vec2(0, 1), Vec2(2, 1), Vec2(1, 1)], [Vec2(1, 1), Vec2(0, 1), Vec2(2, 1)]]) == [Vec2(1, 1), Vec2(2, 1), Vec2(0, 1)]
  {
    RowUnion1();
    UnionStep([[Vec2(1, 1), Vec2(2, 1), Vec2(0, 1)], [Vec2(0, 1), Vec2(2, 1), Vec2(1, 1)]], [Vec2(1, 1), Vec2(0, 1), Vec2(2, 1)]);
    assert [[Vec2(1, 1), Vec2(2, 1), Vec2(0, 1)], [Vec2(0, 1), Vec2(2, 1), Vec2(1, 1)], [Vec2(1, 1), Vec2(0, 1), Vec2(2, 1)]] == [[Vec2(1, 1), Vec2(2, 1), Vec2(0, 1)], [Vec2(0, 1), Vec2(2, 1), Vec2(1, 1)]] + [[Vec2(1, 1), Vec2(0, 1), Vec2(2, 1)]];
    AddNewCovered([Vec2(1, 1), Vec2(2, 1), Vec2(0, 1)], [Vec2(1, 1), Vec2(0, 1), Vec2(2, 1)]);
  }

  /** `collect_matching_at` at the test's origins. */
  lemma RowCollected()
    ensures CollectedMatches(Row(), [Vec2(0, 1), Vec2(1, 1), Vec2(2, 1)]) == [Vec2(1, 1), Vec2(2, 1), Vec2(0, 1)]
  {
    MatchLists3(Row(), Vec2(0, 1), Vec2(1, 1), Vec2(2, 1));
    Row01Matches();
    Row11Matches();
    Row21Matches();
    RowUnion2();
  }

  /** The heap of `test_collect_matching_north_east`: blue from (0, 0) to (2, 2). */
  function Diagonal(): Grid
  {
    [[B, E, E], [E, B, E], [E, E, B]]
  }

  /** The heap is the one the test builds. */
  lemma DiagonalIsBuilt()
    ensures Diagonal() == Set(Set(Set(NewHeap(3, 3, None), Vec2(0, 0), Block.New(Some(Blue))), Vec2(1, 1), Block.New(Some(Blue))), Vec2(2, 2), Block.New(Some(Blue)))
  {
    var h := Set(Set(Set(NewHeap(3, 3, None), Vec2(0, 0), Block.New(Some(Blue))), Vec2(1, 1), Block.New(Some(Blue))), Vec2(2, 2), Block.New(Some(Blue)));
    forall x | 0 <= x < 3
      ensures h[x] == Diagonal()[x]
    {
    }
  }

  lemma Diagonal00North()
    ensures Ray(Diagonal(), Vec2(0, 0), North, 1) == NoCells
  {
    RayIs(Diagonal(), Vec2(0, 0), North, NoCells);
  }

  lemma Diagonal00South()
    ensures Ray(Diagonal(), Vec2(0, 0), South, 1) == NoCells
  {
    assert !Get(Diagonal(), Vec2(0, 1)).Eq(Get(Diagonal(), Vec2(0, 0)));
    RayIs(Diagonal(), Vec2(0, 0), South, NoCells);
  }

  lemma Diagonal00NxS()
    ensures Candidates(Diagonal(), Vec2(0, 0), NxS) == NoCells
  {
    Diagonal00North();
    Diagonal00South();
  }

  lemma Diagonal00West()
    ensures Ray(Diagonal(), Vec2(0, 0), West, 1) == NoCells
  {
    RayIs(Diagonal(), Vec2(0, 0), West, NoCells);
  }

  lemma Diagonal00East()
    ensures Ray(Diagonal(), Vec2(0, 0), East, 1) == NoCells
  {
    assert !Get(Diagonal(), Vec2(1, 0)).Eq(Get(Diagonal(), Vec2(0, 0)));
    RayIs(Diagonal(), Vec2(0, 0), East, NoCells);
  }

  lemma Diagonal00ExW()
    ensures Candidates(Diagonal(), Vec2(0, 0), ExW) == NoCells
  {
    Diagonal00West();
    Diagonal00East();
  }

  lemma Diagonal00NorthEast()
    ensures Ray(Diagonal(), Vec2(0, 0), NorthEast, 1) == NoCells
  {
    RayIs(Diagonal(), Vec2(0, 0), NorthEast, NoCells);
  }

  lemma Diagonal00SouthWest()
    ensures Ray(Diagonal(), Vec2(0, 0), SouthWest, 1) == NoCells
  {
    RayIs(Diagonal(), Vec2(0, 0), SouthWest, NoCells);
  }

  lemma Diagonal00NExSW()
    ensures Candidates(Diagonal(), Vec2(0, 0), NExSW) == NoCells
  {
    Diagonal00NorthEast();
    Diagonal00SouthWest();
  }

  lemma Diagonal00NorthWest()
    ensures Ray(Diagonal(), Vec2(0, 0), NorthWest, 1) == NoCells
  {
    RayIs(Diagonal(), Vec2(0, 0), NorthWest, NoCells);
  }

  lemma Diagonal00SouthEast()
    ensures Ray(Diagonal(), Vec2(0, 0), SouthEast, 1) == [Vec2(1, 1), Vec2(2, 2)]
  {
    RayIs(Diagonal(), Vec2(0, 0), SouthEast, [Vec2(1, 1), Vec2(2, 2)]);
  }

  lemma Diagonal00NWxSE()
    ensures Candidates(Diagonal(), Vec2(0, 0), NWxSE) == [Vec2(1, 1), Vec2(2, 2)]
  {
    Diagonal00NorthWest();
    Diagonal00SouthEast();
  }

  /** What `matching_at` collects at Vec2(0, 0). */
  lemma Diagonal00Matches()
    ensures MatchesAt(Diagonal(), Vec2(0, 0)) == [Vec2(1, 1), Vec2(2, 2), Vec2(0, 0)]
  {
    Diagonal00NxS();
    Diagonal00ExW();
    Diagonal00NExSW();
    Diagonal00NWxSE();
  }

  lemma Diagonal11North()
    ensures Ray(Diagonal(), Vec2(1, 1), North, 1) == NoCells
  {
    assert !Get(Diagonal(), Vec2(1, 0)).Eq(Get(Diagonal(), Vec2(1, 1)));
    RayIs(Diagonal(), Vec2(1, 1), North, NoCells);
  }

  lemma Diagonal11South()
    ensures Ray(Diagonal(), Vec2(1, 1), South, 1) == NoCells
  {
    assert !Get(Diagonal(), Vec2(1, 2)).Eq(Get(Diagonal(), Vec2(1, 1)));
    RayIs(Diagonal(), Vec2(1, 1), South, NoCells);
  }

  lemma Diagonal11NxS()
    ensures Candidates(Diagonal(), Vec2(1, 1), NxS) == NoCells
  {
    Diagonal11North();
    Diagonal11South();
  }

  lemma Diagonal11West()
    ensures Ray(Diagonal(), Vec2(1, 1), West, 1) == NoCells
  {
    assert !Get(Diagonal(), Vec2(0, 1)).Eq(Get(Diagonal(), Vec2(1, 1)));
    RayIs(Diagonal(), Vec2(1, 1), West, NoCells);
  }

  lemma Diagonal11East()
    ensures Ray(Diagonal(), Vec2(1, 1), East, 1) == NoCells
  {
    assert !Get(Diagonal(), Vec2(2, 1)).Eq(Get(Diagonal(), Vec2(1, 1)));
    RayIs(Diagonal(), Vec2(1, 1), East, NoCells);
  }

  lemma Diagonal11ExW()
    ensures Candidates(Diagonal(), Vec2(1, 1), ExW) == NoCells
  {
    Diagonal11West();
    Diagonal11East();
  }

  lemma Diagonal11NorthEast()
    ensures Ray(Diagonal(), Vec2(1, 1), NorthEast, 1) == NoCells
  {
    assert !Get(Diagonal(), Vec2(2, 0)).Eq(Get(Diagonal(), Vec2(1, 1)));
    RayIs(Diagonal(), Vec2(1, 1), NorthEast, NoCells);
  }

  lemma Diagonal11SouthWest()
    ensures Ray(Diagonal(), Vec2(1, 1), SouthWest, 1) == NoCells
  {
    assert !Get(Diagonal(), Vec2(0, 2)).Eq(Get(Diagonal(), Vec2(1, 1)));
    RayIs(Diagonal(), Vec2(1, 1), SouthWest, NoCells);
  }

  lemma Diagonal11NExSW()
    ensures Candidates(Diagonal(), Vec2(1, 1), NExSW) == NoCells
  {
    Diagonal11NorthEast();
    Diagonal11SouthWest();
  }

  lemma Diagonal11NorthWest()
    ensures Ray(Diagonal(), Vec2(1, 1), NorthWest, 1) == [Vec2(0, 0)]
  {
    RayIs(Diagonal(), Vec2(1, 1), NorthWest, [Vec2(0, 0)]);
  }

  lemma Diagonal11SouthEast()
    ensures Ray(Diagonal(), Vec2(1, 1), SouthEast, 1) == [Vec2(2, 2)]
  {
    RayIs(Diagonal(), Vec2(1, 1), SouthEast, [Vec2(2, 2)]);
  }

  lemma Diagonal11NWxSE()
    ensures Candidates(Diagonal(), Vec2(1, 1), NWxSE) == [Vec2(0, 0), Vec2(2, 2)]
  {
    Diagonal11NorthWest();
    Diagonal11SouthEast();
  }

  /** What `matching_at` collects at Vec2(1, 1). */
  lemma Diagonal11Matches()
    ensures MatchesAt(Diagonal(), Vec2(1, 1)) == [Vec2(0, 0), Vec2(2, 2), Vec2(1, 1)]
  {
    Diagonal11NxS();
    Diagonal11ExW();
    Diagonal11NExSW();
    Diagonal11NWxSE();
  }

  lemma Diagonal22North()
    ensures Ray(Diagonal(), Vec2(2, 2), North, 1) == NoCells
  {
    assert !Get(Diagonal(), Vec2(2, 1)).Eq(Get(Diagonal(), Vec2(2, 2)));
    RayIs(Diagonal(), Vec2(2, 2), North, NoCells);
  }

  lemma Diagonal22South()
    ensures Ray(Diagonal(), Vec2(2, 2), South, 1) == NoCells
  {
    RayIs(Diagonal(), Vec2(2, 2), South, NoCells);
  }

  lemma Diagonal22NxS()
    ensures Candidates(Diagonal(), Vec2(2, 2), NxS) == NoCells
  {
    Diagonal22North();
    Diagonal22South();
  }

  lemma Diagonal22West()
    ensures Ray(Diagonal(), Vec2(2, 2), West, 1) == NoCells
  {
    assert !Get(Diagonal(), Vec2(1, 2)).Eq(Get(Diagonal(), Vec2(2, 2)));
    RayIs(Diagonal(), Vec2(2, 2), West, NoCells);
  }

  lemma Diagonal22East()
    ensures Ray(Diagonal(), Vec2(2, 2), East, 1) == NoCells
  {
    RayIs(Diagonal(), Vec2(2, 2), East, NoCells);
  }

  lemma Diagonal22ExW()
    ensures Candidates(Diagonal(), Vec2(2, 2), ExW) == NoCells
  {
    Diagonal22West();
    Diagonal22East();
  }

  lemma Diagonal22NorthEast()
    ensures Ray(Diagonal(), Vec2(2, 2), NorthEast, 1) == NoCells
  {
    RayIs(Diagonal(), Vec2(2, 2), NorthEast, NoCells);
  }

  lemma Diagonal22SouthWest()
    ensures Ray(Diagonal(), Vec2(2, 2), SouthWest, 1) == NoCells
  {
    RayIs(Diagonal(), Vec2(2, 2), SouthWest, NoCells);
  }

  lemma Diagonal22NExSW()
    ensures Candidates(Diagonal(), Vec2(2, 2), NExSW) == NoCells
  {
    Diagonal22NorthEast();
    Diagonal22SouthWest();
  }

  lemma Diagonal22NorthWest()
    ensures Ray(Diagonal(), Vec2(2, 2), NorthWest, 1) == [Vec2(1, 1), Vec2(0, 0)]
  {
    RayIs(Diagonal(), Vec2(2, 2), NorthWest, [Vec2(1, 1), Vec2(0, 0)]);
  }

  lemma Diagonal22SouthEast()
    ensures Ray(Diagonal(), Vec2(2, 2), SouthEast, 1) == NoCells
  {
    RayIs(Diagonal(), Vec2(2, 2), SouthEast, NoCells);
  }

  lemma Diagonal22NWxSE()
    ensures Candidates(Diagonal(), Vec2(2, 2), NWxSE) == [Vec2(1, 1), Vec2(0, 0)]
  {
    Diagonal22NorthWest();
    Diagonal22SouthEast();
  }

  /** What `matching_at` collects at Vec2(2, 2). */
  lemma Diagonal22Matches()
    ensures MatchesAt(Diagonal(), Vec2(2, 2)) == [Vec2(1, 1), Vec2(0, 0), Vec2(2, 2)]
  {
    Diagonal22NxS();
    Diagonal22ExW();
    Diagonal22NExSW();
    Diagonal22NWxSE();
  }

  /** Merging the matches of the first 1 origin(s), each cell once. */
  lemma DiagonalUnion0()
    ensures Union([[Vec2(1, 1), Vec2(2, 2), Vec2(0, 0)]]) == [Vec2(1, 1), Vec2(2, 2), Vec2(0, 0)]
  {
    UnionStep([], [Vec2(1, 1), Vec2(2, 2), Vec2(0, 0)]);
    assert [[Vec2(1, 1), Vec2(2, 2), Vec2(0, 0)]] == [] + [[Vec2(1, 1), Vec2(2, 2), Vec2(0, 0)]];
    AddNewFresh(NoCells, [Vec2(1, 1), Vec2(2, 2), Vec2(0, 0)]);
  }

  /** Merging the matches of the first 2 origin(s), each cell once. */
  lemma DiagonalUnion1()
    ensures Union([[Vec2(1, 1), Vec2(2, 2), Vec2(0, 0)], [Vec2(0, 0), Vec2(2, 2), Vec2(1, 1)]]) == [Vec2(1, 1), Vec2(2, 2), Vec2(0, 0)]
  {
    DiagonalUnion0();
    UnionStep([[Vec2(1, 1), Vec2(2, 2), Vec2(0, 0)]], [Vec2(0, 0), Vec2(2, 2), Vec2(1, 1)]);
    assert [[Vec2(1, 1), Vec2(2, 2), Vec2(0, 0)], [Vec2(0, 0), Vec2(2, 2), Vec2(1, 1)]] == [[Vec2(1, 1), Vec2(2, 2), Vec2(0, 0)]] + [[Vec2(0, 0), Vec2(2, 2), Vec2(1, 1)]];
    AddNewCovered([Vec2(1, 1), Vec2(2, 2), Vec2(0, 0)], [Vec2(0, 0), Vec2(2, 2), Vec2(1, 1)]);
  }

  /** Merging the matches of the first 3 origin(s), each cell once. */
  lemma DiagonalUnion2()
    ensures Union([[Vec2(1, 1), Vec2(2, 2), Vec2(0, 0)], [Vec2(0, 0), Vec2(2, 2), Vec2(1, 1)], [Vec2(1, 1), Vec2(0, 0), Vec2(2, 2)]]) == [Vec2(1, 1), Vec2(2, 2), Vec2(0, 0)]
  {
    DiagonalUnion1();
    UnionStep([[Vec2(1, 1), Vec2(2, 2), Vec2(0, 0)], [Vec2(0, 0), Vec2(2, 2), Vec2(1, 1)]], [Vec2(1, 1), Vec2(0, 0), Vec2(2, 2)]);
    assert [[Vec2(1, 1), Vec2(2, 2), Vec2(0, 0)], [Vec2(0, 0), Vec2(2, 2), Vec2(1, 1)], [Vec2(1, 1), Vec2(0, 0), Vec2(2, 2)]] == [[Vec2(1, 1), Vec2(2, 2), Vec2(0, 0)], [Vec2(0, 0), Vec2(2, 2), Vec2(1, 1)]] + [[Vec2(1, 1), Vec2(0, 0), Vec2(2, 2)]];
    AddNewCovered([Vec2(1, 1), Vec2(2, 2), Vec2(0, 0)], [Vec2(1, 1), Vec2(0, 0), Vec2(2, 2)]);
  }

  /** `collect_matching_at` at the test's origins. */
  lemma DiagonalCollected()
    ensures CollectedMatches(Diagonal(), [Vec2(0, 0), Vec2(1, 1), Vec2(2, 2)]) == [Vec2(1, 1), Vec2(2, 2), Vec2(0, 0)]
  {
    MatchLists3(Diagonal(), Vec2(0, 0), Vec2(1, 1), Vec2(2, 2));
    Diagonal00Matches();
    Diagonal11Matches();
    Diagonal22Matches();
    DiagonalUnion2();
  }

  /** The heap of `test_collect_matching_south_west`: blue from (2, 0) to (0, 2). */
  function AntiDiagonal(): Grid
  {
    [[E, E, B], [E, B, E], [B, E, E]]
  }

  /** The heap is the one the test builds. */
  lemma AntiDiagonalIsBuilt()
    ensures AntiDiagonal() == Set(Set(Set(NewHeap(3, 3, None), Vec2(2, 0), Block.New(Some(Blue))), Vec2(1, 1), Block.New(Some(Blue))), Vec2(0, 2), Block.New(Some(Blue)))
  {
    var h := Set(Set(Set(NewHeap(3, 3, None), Vec2(2, 0), Block.New(Some(Blue))), Vec2(1, 1), Block.New(Some(Blue))), Vec2(0, 2), Block.New(Some(Blue)));
    forall x | 0 <= x < 3
      ensures h[x] == AntiDiagonal()[x]
    {
    }
  }

  lemma AntiDiagonal20North()
    ensures Ray(AntiDiagonal(), Vec2(2, 0), North, 1) == NoCells
  {
    RayIs(AntiDiagonal(), Vec2(2, 0), North, NoCells);
  }

  lemma AntiDiagonal20South()
    ensures Ray(AntiDiagonal(), Vec2(2, 0), South, 1) == NoCells
  {
    assert !Get(AntiDiagonal(), Vec2(2, 1)).Eq(Get(AntiDiagonal(), Vec2(2, 0)));
    RayIs(AntiDiagonal(), Vec2(2, 0), South, NoCells);
  }

  lemma AntiDiagonal20NxS()
    ensures Candidates(AntiDiagonal(), Vec2(2, 0), NxS) == NoCells
  {
    AntiDiagonal20North();
    AntiDiagonal20South();
  }

  lemma AntiDiagonal20West()
    ensures Ray(AntiDiagonal(), Vec2(2, 0), West, 1) == NoCells
  {
    assert !Get(AntiDiagonal(), Vec2(1, 0)).Eq(Get(AntiDiagonal(), Vec2(2, 0)));
    RayIs(AntiDiagonal(), Vec2(2, 0), West, NoCells);
  }

  lemma AntiDiagonal20East()
    ensures Ray(AntiDiagonal(), Vec2(2, 0), East, 1) == NoCells
  {
    RayIs(AntiDiagonal(), Vec2(2, 0), East, NoCells);
  }

  lemma AntiDiagonal20ExW()
    ensures Candidates(AntiDiagonal(), Vec2(2, 0), ExW) == NoCells
  {
    AntiDiagonal20West();
    AntiDiagonal20East();
  }

  lemma AntiDiagonal20NorthEast()
    ensures Ray(AntiDiagonal(), Vec2(2, 0), NorthEast, 1) == NoCells
  {
    RayIs(AntiDiagonal(), Vec2(2, 0), NorthEast, NoCells);
  }

  lemma AntiDiagonal20SouthWest()
    ensures Ray(AntiDiagonal(), Vec2(2, 0), SouthWest, 1) == [Vec2(1, 1), Vec2(0, 2)]
  {
    RayIs(AntiDiagonal(), Vec2(2, 0), SouthWest, [Vec2(1, 1), Vec2(0, 2)]);
  }

  lemma AntiDiagonal20NExSW()
    ensures Candidates(AntiDiagonal(), Vec2(2, 0), NExSW) == [Vec2(1, 1), Vec2(0, 2)]
  {
    AntiDiagonal20NorthEast();
    AntiDiagonal20SouthWest();
  }

  lemma AntiDiagonal20NorthWest()
    ensures Ray(AntiDiagonal(), Vec2(2, 0), NorthWest, 1) == NoCells
  {
    RayIs(AntiDiagonal(), Vec2(2, 0), NorthWest, NoCells);
  }

  lemma AntiDiagonal20SouthEast()
    ensures Ray(AntiDiagonal(), Vec2(2, 0), SouthEast, 1) == NoCells
  {
    RayIs(AntiDiagonal(), Vec2(2, 0), SouthEast, NoCells);
  }

  lemma AntiDiagonal20NWxSE()
    ensures Candidates(AntiDiagonal(), Vec2(2, 0), NWxSE) == NoCells
  {
    AntiDiagonal20NorthWest();
    AntiDiagonal20SouthEast();
  }

  /** What `matching_at` collects at Vec2(2, 0). */
  lemma AntiDiagonal20Matches()
    ensures MatchesAt(AntiDiagonal(), Vec2(2, 0)) == [Vec2(1, 1), Vec2(0, 2), Vec2(2, 0)]
  {
    AntiDiagonal20NxS();
    AntiDiagonal20ExW();
    AntiDiagonal20NExSW();
    AntiDiagonal20NWxSE();
  }

  lemma AntiDiagonal11North()
    ensures Ray(AntiDiagonal(), Vec2(1, 1), North, 1) == NoCells
  {
    assert !Get(AntiDiagonal(), Vec2(1, 0)).Eq(Get(AntiDiagonal(), Vec2(1, 1)));
    RayIs(AntiDiagonal(), Vec2(1, 1), North, NoCells);
  }

  lemma AntiDiagonal11South()
    ensures Ray(AntiDiagonal(), Vec2(1, 1), South, 1) == NoCells
  {
    assert !Get(AntiDiagonal(), Vec2(1, 2)).Eq(Get(AntiDiagonal(), Vec2(1, 1)));
    RayIs(AntiDiagonal(), Vec2(1, 1), South, NoCells);
  }

  lemma AntiDiagonal11NxS()
    ensures Candidates(AntiDiagonal(), Vec2(1, 1), NxS) == NoCells
  {
    AntiDiagonal11North();
    AntiDiagonal11South();
  }

  lemma AntiDiagonal11West()
    ensures Ray(AntiDiagonal(), Vec2(1, 1), West, 1) == NoCells
  {
    assert !Get(AntiDiagonal(), Vec2(0, 1)).Eq(Get(AntiDiagonal(), Vec2(1, 1)));
    RayIs(AntiDiagonal(), Vec2(1, 1), West, NoCells);
  }

  lemma AntiDiagonal11East()
    ensures Ray(AntiDiagonal(), Vec2(1, 1), East, 1) == NoCells
  {
    assert !Get(AntiDiagonal(), Vec2(2, 1)).Eq(Get(AntiDiagonal(), Vec2(1, 1)));
    RayIs(AntiDiagonal(), Vec2(1, 1), East, NoCells);
  }

  lemma AntiDiagonal11ExW()
    ensures Candidates(AntiDiagonal(), Vec2(1, 1), ExW) == NoCells
  {
    AntiDiagonal11West();
    AntiDiagonal11East();
  }

  lemma AntiDiagonal11NorthEast()
    ensures Ray(AntiDiagonal(), Vec2(1, 1), NorthEast, 1) == [Vec2(2, 0)]
  {
    RayIs(AntiDiagonal(), Vec2(1, 1), NorthEast, [Vec2(2, 0)]);
  }

  lemma AntiDiagonal11SouthWest()
    ensures Ray(AntiDiagonal(), Vec2(1, 1), SouthWest, 1) == [Vec2(0, 2)]
  {
    RayIs(AntiDiagonal(), Vec2(1, 1), SouthWest, [Vec2(0, 2)]);
  }

  lemma AntiDiagonal11NExSW()
    ensures Candidates(AntiDiagonal(), Vec2(1, 1), NExSW) == [Vec2(2, 0), Vec2(0, 2)]
  {
    AntiDiagonal11NorthEast();
    AntiDiagonal11SouthWest();
  }

  lemma AntiDiagonal11NorthWest()
    ensures Ray(AntiDiagonal(), Vec2(1, 1), NorthWest, 1) == NoCells
  {
    assert !Get(AntiDiagonal(), Vec2(0, 0)).Eq(Get(AntiDiagonal(), Vec2(1, 1)));
    RayIs(AntiDiagonal(), Vec2(1, 1), NorthWest, NoCells);
  }

  lemma AntiDiagonal11SouthEast()
    ensures Ray(AntiDiagonal(), Vec2(1, 1), SouthEast, 1) == NoCells
  {
    assert !Get(AntiDiagonal(), Vec2(2, 2)).Eq(Get(AntiDiagonal(), Vec2(1, 1)));
    RayIs(AntiDiagonal(), Vec2(1, 1), SouthEast, NoCells);
  }

  lemma AntiDiagonal11NWxSE()
    ensures Candidates(AntiDiagonal(), Vec2(1, 1), NWxSE) == NoCells
  {
    AntiDiagonal11NorthWest();
    AntiDiagonal11SouthEast();
  }

  /** What `matching_at` collects at Vec2(1, 1). */
  lemma AntiDiagonal11Matches()
    ensures MatchesAt(AntiDiagonal(), Vec2(1, 1)) == [Vec2(2, 0), Vec2(0, 2), Vec2(1, 1)]
  {
    AntiDiagonal11NxS();
    AntiDiagonal11ExW();
    AntiDiagonal11NExSW();
    AntiDiagonal11NWxSE();
  }

  lemma AntiDiagonal02North()
    ensures Ray(AntiDiagonal(), Vec2(0, 2), North, 1) == NoCells
  {
    assert !Get(AntiDiagonal(), Vec2(0, 1)).Eq(Get(AntiDiagonal(), Vec2(0, 2)));
    RayIs(AntiDiagonal(), Vec2(0, 2), North, NoCells);
  }

  lemma AntiDiagonal02South()
    ensures Ray(AntiDiagonal(), Vec2(0, 2), South, 1) == NoCells
  {
    RayIs(AntiDiagonal(), Vec2(0, 2), South, NoCells);
  }

  lemma AntiDiagonal02NxS()
    ensures Candidates(AntiDiagonal(), Vec2(0, 2), NxS) == NoCells
  {
    AntiDiagonal02North();
    AntiDiagonal02South();
  }

  lemma AntiDiagonal02West()
    ensures Ray(AntiDiagonal(), Vec2(0, 2), West, 1) == NoCells
  {
    RayIs(AntiDiagonal(), Vec2(0, 2), West, NoCells);
  }

  lemma AntiDiagonal02East()
    ensures Ray(AntiDiagonal(), Vec2(0, 2), East, 1) == NoCells
  {
    assert !Get(AntiDiagonal(), Vec2(1, 2)).Eq(Get(AntiDiagonal(), Vec2(0, 2)));
    RayIs(AntiDiagonal(), Vec2(0, 2), East, NoCells);
  }

  lemma AntiDiagonal02ExW()
    ensures Candidates(AntiDiagonal(), Vec2(0, 2), ExW) == NoCells
  {
    AntiDiagonal02West();
    AntiDiagonal02East();
  }

  lemma AntiDiagonal02NorthEast()
    ensures Ray(AntiDiagonal(), Vec2(0, 2), NorthEast, 1) == [Vec2(1, 1), Vec2(2, 0)]
  {
    RayIs(AntiDiagonal(), Vec2(0, 2), NorthEast, [Vec2(1, 1), Vec2(2, 0)]);
  }

  lemma AntiDiagonal02SouthWest()
    ensures Ray(AntiDiagonal(), Vec2(0, 2), SouthWest, 1) == NoCells
  {
    RayIs(AntiDiagonal(), Vec2(0, 2), SouthWest, NoCells);
  }

  lemma AntiDiagonal02NExSW()
    ensures Candidates(AntiDiagonal(), Vec2(0, 2), NExSW) == [Vec2(1, 1), Vec2(2, 0)]
  {
    AntiDiagonal02NorthEast();
    AntiDiagonal02SouthWest();
  }

  lemma AntiDiagonal02NorthWest()
    ensures Ray(AntiDiagonal(), Vec2(0, 2), NorthWest, 1) == NoCells
  {
    RayIs(AntiDiagonal(), Vec2(0, 2), NorthWest, NoCells);
  }

  lemma AntiDiagonal02SouthEast()
    ensures Ray(AntiDiagonal(), Vec2(0, 2), SouthEast, 1) == NoCells
  {
    RayIs(AntiDiagonal(), Vec2(0, 2), SouthEast, NoCells);
  }

  lemma AntiDiagonal02NWxSE()
    ensures Candidates(AntiDiagonal(), Vec2(0, 2), NWxSE) == NoCells
  {
    AntiDiagonal02NorthWest();
    AntiDiagonal02SouthEast();
  }

  /** What `matching_at` collects at Vec2(0, 2). */
  lemma AntiDiagonal02Matches()
    ensures MatchesAt(AntiDiagonal(), Vec2(0, 2)) == [Vec2(1, 1), Vec2(2, 0), Vec2(0, 2)]
  {
    AntiDiagonal02NxS();
    AntiDiagonal02ExW();
    AntiDiagonal02NExSW();
    AntiDiagonal02NWxSE();
  }

  /** Merging the matches of the first 1 origin(s), each cell once. */
  lemma AntiDiagonalUnion0()
    ensures Union([[Vec2(1, 1), Vec2(0, 2), Vec2(2, 0)]]) == [Vec2(1, 1), Vec2(0, 2), Vec2(2, 0)]
  {
    UnionStep([], [Vec2(1, 1), Vec2(0, 2), Vec2(2, 0)]);
    assert [[Vec2(1, 1), Vec2(0, 2), Vec2(2, 0)]] == [] + [[Vec2(1, 1), Vec2(0, 2), Vec2(2, 0)]];
    AddNewFresh(NoCells, [Vec2(1, 1), Vec2(0, 2), Vec2(2, 0)]);
  }

  /** Merging the matches of the first 2 origin(s), each cell once. */
  lemma AntiDiagonalUnion1()
    ensures Union([[Vec2(1, 1), Vec2(0, 2), Vec2(2, 0)], [Vec2(2, 0), Vec2(0, 2), Vec2(1, 1)]]) == [Vec2(1, 1), Vec2(0, 2), Vec2(2, 0)]
  {
    AntiDiagonalUnion0();
    UnionStep([[Vec2(1, 1), Vec2(0, 2), Vec2(2, 0)]], [Vec2(2, 0), Vec2(0, 2), Vec2(1, 1)]);
    assert [[Vec2(1, 1), Vec2(0, 2), Vec2(2, 0)], [Vec2(2, 0), Vec2(0, 2), Vec2(1, 1)]] == [[Vec2(1, 1), Vec2(0, 2), Vec2(2, 0)]] + [[Vec2(2, 0), Vec2(0, 2), Vec2(1, 1)]];
    AddNewCovered([Vec2(1, 1), Vec2(0, 2), Vec2(2, 0)], [Vec2(2, 0), Vec2(0, 2), Vec2(1, 1)]);
  }

  /** Merging the matches of the first 3 origin(s), each cell once. */
  lemma AntiDiagonalUnion2()
    ensures Union([[Vec2(1, 1), Vec2(0, 2), Vec2(2, 0)], [Vec2(2, 0), Vec2(0, 2), Vec2(1, 1)], [Vec2(1, 1), Vec2(2, 0), Vec2(0, 2)]]) == [Vec2(1, 1), Vec2(0, 2), Vec2(2, 0)]
  {
    AntiDiagonalUnion1();
    UnionStep([[Vec2(1, 1), Vec2(0, 2), Vec2(2, 0)], [Vec2(2, 0), Vec2(0, 2), Vec2(1, 1)]], [Vec2(1, 1), Vec2(2, 0), Vec2(0, 2)]);
    assert [[Vec2(1, 1), Vec2(0, 2), Vec2(2, 0)], [Vec2(2, 0), Vec2(0, 2), Vec2(1, 1)], [Vec2(1, 1), Vec2(2, 0), Vec2(0, 2)]] == [[Vec2(1, 1), Vec2(0, 2), Vec2(2, 0)], [Vec2(2, 0), Vec2(0, 2), Vec2(1, 1)]] + [[Vec2(1, 1), Vec2(2, 0), Vec2(0, 2)]];
    AddNewCovered([Vec2(1, 1), Vec2(0, 2), Vec2(2, 0)], [Vec2(1, 1), Vec2(2, 0), Vec2(0, 2)]);
  }

  /** `collect_matching_at` at the test's origins. */
  lemma AntiDiagonalCollected()
    ensures CollectedMatches(AntiDiagonal(), [Vec2(2, 0), Vec2(1, 1), Vec2(0, 2)]) == [Vec2(1, 1), Vec2(0, 2), Vec2(2, 0)]
  {
    MatchLists3(AntiDiagonal(), Vec2(2, 0), Vec2(1, 1), Vec2(0, 2));
    AntiDiagonal20Matches();
    AntiDiagonal11Matches();
    AntiDiagonal02Matches();
    AntiDiagonalUnion2();
  }

  /** The heap of `test_collect_matching_all_directions`: magenta everywhere. */
  function AllMagenta(): Grid
  {
    [[P, P, P], [P, P, P], [P, P, P]]
  }

  /** The heap is the one the test builds. */
  lemma AllMagentaIsBuilt()
    ensures AllMagenta() == NewHeap(3, 3, Some(Magenta))
  {
    var h := NewHeap(3, 3, Some(Magenta));
    forall x | 0 <= x < 3
      ensures h[x] == AllMagenta()[x]
    {
    }
  }

  lemma AllMagenta00North()
    ensures Ray(AllMagenta(), Vec2(0, 0), North, 1) == NoCells
  {
    RayIs(AllMagenta(), Vec2(0, 0), North, NoCells);
  }

  lemma AllMagenta00South()
    ensures Ray(AllMagenta(), Vec2(0, 0), South, 1) == [Vec2(0, 1), Vec2(0, 2)]
  {
    RayIs(AllMagenta(), Vec2(0, 0), South, [Vec2(0, 1), Vec2(0, 2)]);
  }

  lemma AllMagenta00NxS()
    ensures Candidates(AllMagenta(), Vec2(0, 0), NxS) == [Vec2(0, 1), Vec2(0, 2)]
  {
    AllMagenta00North();
    AllMagenta00South();
  }

  lemma AllMagenta00West()
    ensures Ray(AllMagenta(), Vec2(0, 0), West, 1) == NoCells
  {
    RayIs(AllMagenta(), Vec2(0, 0), West, NoCells);
  }

  lemma AllMagenta00East()
    ensures Ray(AllMagenta(), Vec2(0, 0), East, 1) == [Vec2(1, 0), Vec2(2, 0)]
  {
    RayIs(AllMagenta(), Vec2(0, 0), East, [Vec2(1, 0), Vec2(2, 0)]);
  }

  lemma AllMagenta00ExW()
    ensures Candidates(AllMagenta(), Vec2(0, 0), ExW) == [Vec2(1, 0), Vec2(2, 0)]
  {
    AllMagenta00West();
    AllMagenta00East();
  }

  lemma AllMagenta00NorthEast()
    ensures Ray(AllMagenta(), Vec2(0, 0), NorthEast, 1) == NoCells
  {
    RayIs(AllMagenta(), Vec2(0, 0), NorthEast, NoCells);
  }

  lemma AllMagenta00SouthWest()
    ensures Ray(AllMagenta(), Vec2(0, 0), SouthWest, 1) == NoCells
  {
    RayIs(AllMagenta(), Vec2(0, 0), SouthWest, NoCells);
  }

  lemma AllMagenta00NExSW()
    ensures Candidates(AllMagenta(), Vec2(0, 0), NExSW) == NoCells
  {
    AllMagenta00NorthEast();
    AllMagenta00SouthWest();
  }

  lemma AllMagenta00NorthWest()
    ensures Ray(AllMagenta(), Vec2(0, 0), NorthWest, 1) == NoCells
  {
    RayIs(AllMagenta(), Vec2(0, 0), NorthWest, NoCells);
  }

  lemma AllMagenta00SouthEast()
    ensures Ray(AllMagenta(), Vec2(0, 0), SouthEast, 1) == [Vec2(1, 1), Vec2(2, 2)]
  {
    RayIs(AllMagenta(), Vec2(0, 0), SouthEast, [Vec2(1, 1), Vec2(2, 2)]);
  }

  lemma AllMagenta00NWxSE()
    ensures Candidates(AllMagenta(), Vec2(0, 0), NWxSE) == [Vec2(1, 1), Vec2(2, 2)]
  {
    AllMagenta00NorthWest();
    AllMagenta00SouthEast();
  }

  /** What `matching_at` collects at Vec2(0, 0). */
  lemma AllMagenta00Matches()
    ensures MatchesAt(AllMagenta(), Vec2(0, 0)) == [Vec2(0, 1), Vec2(0, 2), Vec2(1, 0), Vec2(2, 0), Vec2(1, 1), Vec2(2, 2), Vec2(0, 0)]
  {
    AllMagenta00NxS();
    AllMagenta00ExW();
    AllMagenta00NExSW();
    AllMagenta00NWxSE();
  }

  lemma AllMagenta22North()
    ensures Ray(AllMagenta(), Vec2(2, 2), North, 1) == [Vec2(2, 1), Vec2(2, 0)]
  {
    RayIs(AllMagenta(), Vec2(2, 2), North, [Vec2(2, 1), Vec2(2, 0)]);
  }

  lemma AllMagenta22South()
    ensures Ray(AllMagenta(), Vec2(2, 2), South, 1) == NoCells
  {
    RayIs(AllMagenta(), Vec2(2, 2), South, NoCells);
  }

  lemma AllMagenta22NxS()
    ensures Candidates(AllMagenta(), Vec2(2, 2), NxS) == [Vec2(2, 1), Vec2(2, 0)]
  {
    AllMagenta22North();
    AllMagenta22South();
  }

  lemma AllMagenta22West()
    ensures Ray(AllMagenta(), Vec2(2, 2), West, 1) == [Vec2(1, 2), Vec2(0, 2)]
  {
    RayIs(AllMagenta(), Vec2(2, 2), West, [Vec2(1, 2), Vec2(0, 2)]);
  }

  lemma AllMagenta22East()
    ensures Ray(AllMagenta(), Vec2(2, 2), East, 1) == NoCells
  {
    RayIs(AllMagenta(), Vec2(2, 2), East, NoCells);
  }

  lemma AllMagenta22ExW()
    ensures Candidates(AllMagenta(), Vec2(2, 2), ExW) == [Vec2(1, 2), Vec2(0, 2)]
  {
    AllMagenta22West();
    AllMagenta22East();
  }

  lemma AllMagenta22NorthEast()
    ensures Ray(AllMagenta(), Vec2(2, 2), NorthEast, 1) == NoCells
  {
    RayIs(AllMagenta(), Vec2(2, 2), NorthEast, NoCells);
  }

  lemma AllMagenta22SouthWest()
    ensures Ray(AllMagenta(), Vec2(2, 2), SouthWest, 1) == NoCells
  {
    RayIs(AllMagenta(), Vec2(2, 2), SouthWest, NoCells);
  }

  lemma AllMagenta22NExSW()
    ensures Candidates(AllMagenta(), Vec2(2, 2), NExSW) == NoCells
  {
    AllMagenta22NorthEast();
    AllMagenta22SouthWest();
  }

  lemma AllMagenta22NorthWest()
    ensures Ray(AllMagenta(), Vec2(2, 2), NorthWest, 1) == [Vec2(1, 1), Vec2(0, 0)]
  {
    RayIs(AllMagenta(), Vec2(2, 2), NorthWest, [Vec2(1, 1), Vec2(0, 0)]);
  }

  lemma AllMagenta22SouthEast()
    ensures Ray(AllMagenta(), Vec2(2, 2), SouthEast, 1) == NoCells
  {
    RayIs(AllMagenta(), Vec2(2, 2), SouthEast, NoCells);
  }

  lemma AllMagenta22NWxSE()
    ensures Candidates(AllMagenta(), Vec2(2, 2), NWxSE) == [Vec2(1, 1), Vec2(0, 0)]
  {
    AllMagenta22NorthWest();
    AllMagenta22SouthEast();
  }

  /** What `matching_at` collects at Vec2(2, 2). */
  lemma AllMagenta22Matches()
    ensures MatchesAt(AllMagenta(), Vec2(2, 2)) == [Vec2(2, 1), Vec2(2, 0), Vec2(1, 2), Vec2(0, 2), Vec2(1, 1), Vec2(0, 0), Vec2(2, 2)]
  {
    AllMagenta22NxS();
    AllMagenta22ExW();
    AllMagenta22NExSW();
    AllMagenta22NWxSE();
  }

  /** Merging the matches of the first 1 origin(s), each cell once. */
  lemma AllMagentaUnion0()
    ensures Union([[Vec2(0, 1), Vec2(0, 2), Vec2(1, 0), Vec2(2, 0), Vec2(1, 1), Vec2(2, 2), Vec2(0, 0)]]) == [Vec2(0, 1), Vec2(0, 2), Vec2(1, 0), Vec2(2, 0), Vec2(1, 1), Vec2(2, 2), Vec2(0, 0)]
  {
    UnionStep([], [Vec2(0, 1), Vec2(0, 2), Vec2(1, 0), Vec2(2, 0), Vec2(1, 1), Vec2(2, 2), Vec2(0, 0)]);
    assert [[Vec2(0, 1), Vec2(0, 2), Vec2(1, 0), Vec2(2, 0), Vec2(1, 1), Vec2(2, 2), Vec2(0, 0)]] == [] + [[Vec2(0, 1), Vec2(0, 2), Vec2(1, 0), Vec2(2, 0), Vec2(1, 1), Vec2(2, 2), Vec2(0, 0)]];
    AddNewFresh(NoCells, [Vec2(0, 1), Vec2(0, 2), Vec2(1, 0), Vec2(2, 0), Vec2(1, 1), Vec2(2, 2), Vec2(0, 0)]);
  }

  lemma AllMagentaUnion1Step0()
    ensures AddNew([Vec2(0, 1), Vec2(0, 2), Vec2(1, 0), Vec2(2, 0), Vec2(1, 1), Vec2(2, 2), Vec2(0, 0)], [Vec2(2, 1)]) == [Vec2(0, 1), Vec2(0, 2), Vec2(1, 0), Vec2(2, 0), Vec2(1, 1), Vec2(2, 2), Vec2(0, 0), Vec2(2, 1)]
  {
    AddNewStep([Vec2(0, 1), Vec2(0, 2), Vec2(1, 0), Vec2(2, 0), Vec2(1, 1), Vec2(2, 2), Vec2(0, 0)], NoCells, Vec2(2, 1));
    assert [Vec2(2, 1)] == NoCells + [Vec2(2, 1)];
  }

  lemma AllMagentaUnion1Step1()
    ensures AddNew([Vec2(0, 1), Vec2(0, 2), Vec2(1, 0), Vec2(2, 0), Vec2(1, 1), Vec2(2, 2), Vec2(0, 0)], [Vec2(2, 1), Vec2(2, 0)]) == [Vec2(0, 1), Vec2(0, 2), Vec2(1, 0), Vec2(2, 0), Vec2(1, 1), Vec2(2, 2), Vec2(0, 0), Vec2(2, 1)]
  {
    AllMagentaUnion1Step0();
    AddNewStep([Vec2(0, 1), Vec2(0, 2), Vec2(1, 0), Vec2(2, 0), Vec2(1, 1), Vec2(2, 2), Vec2(0, 0)], [Vec2(2, 1)], Vec2(2, 0));
    assert [Vec2(2, 1), Vec2(2, 0)] == [Vec2(2, 1)] + [Vec2(2, 0)];
  }

  lemma AllMagentaUnion1Step2()
    ensures AddNew([Vec2(0, 1), Vec2(0, 2), Vec2(1, 0), Vec2(2, 0), Vec2(1, 1), Vec2(2, 2), Vec2(0, 0)], [Vec2(2, 1), Vec2(2, 0), Vec2(1, 2)]) == [Vec2(0, 1), Vec2(0, 2), Vec2(1, 0), Vec2(2, 0), Vec2(1, 1), Vec2(2, 2), Vec2(0, 0), Vec2(2, 1), Vec2(1, 2)]
  {
    AllMagentaUnion1Step1();
    AddNewStep([Vec2(0, 1), Vec2(0, 2), Vec2(1, 0), Vec2(2, 0), Vec2(1, 1), Vec2(2, 2), Vec2(0, 0)], [Vec2(2, 1), Vec2(2, 0)], Vec2(1, 2));
    assert [Vec2(2, 1), Vec2(2, 0), Vec2(1, 2)] == [Vec2(2, 1), Vec2(2, 0)] + [Vec2(1, 2)];
  }

  lemma AllMagentaUnion1Step3()
    ensures AddNew([Vec2(0, 1), Vec2(0, 2), Vec2(1, 0), Vec2(2, 0), Vec2(1, 1), Vec2(2, 2), Vec2(0, 0)], [Vec2(2, 1), Vec2(2, 0), Vec2(1, 2), Vec2(0, 2)]) == [Vec2(0, 1), Vec2(0, 2), Vec2(1, 0), Vec2(2, 0), Vec2(1, 1), Vec2(2, 2), Vec2(0, 0), Vec2(2, 1), Vec2(1, 2)]
  {
    AllMagentaUnion1Step2();
    AddNewStep([Vec2(0, 1), Vec2(0, 2), Vec2(1, 0), Vec2(2, 0), Vec2(1, 1), Vec2(2, 2), Vec2(0, 0)], [Vec2(2, 1), Vec2(2, 0), Vec2(1, 2)], Vec2(0, 2));
    assert [Vec2(2, 1), Vec2(2, 0), Vec2(1, 2), Vec2(0, 2)] == [Vec2(2, 1), Vec2(2, 0), Vec2(1, 2)] + [Vec2(0, 2)];
  }

  lemma AllMagentaUnion1Step4()
    ensures AddNew([Vec2(0, 1), Vec2(0, 2), Vec2(1, 0), Vec2(2, 0), Vec2(1, 1), Vec2(2, 2), Vec2(0, 0)], [Vec2(2, 1), Vec2(2, 0), Vec2(1, 2), Vec2(0, 2), Vec2(1, 1)]) == [Vec2(0, 1), Vec2(0, 2), Vec2(1, 0), Vec2(2, 0), Vec2(1, 1), Vec2(2, 2), Vec2(0, 0), Vec2(2, 1), Vec2(1, 2)]
  {
    AllMagentaUnion1Step3();
    AddNewStep([Vec2(0, 1), Vec2(0, 2), Vec2(1, 0), Vec2(2, 0), Vec2(1, 1), Vec2(2, 2), Vec2(0, 0)], [Vec2(2, 1), Vec2(2, 0), Vec2(1, 2), Vec2(0, 2)], Vec2(1, 1));
    assert [Vec2(2, 1), Vec2(2, 0), Vec2(1, 2), Vec2(0, 2), Vec2(1, 1)] == [Vec2(2, 1), Vec2(2, 0), Vec2(1, 2), Vec2(0, 2)] + [Vec2(1, 1)];
  }

  lemma AllMagentaUnion1Step5()
    ensures AddNew([Vec2(0, 1), Vec2(0, 2), Vec2(1, 0), Vec2(2, 0), Vec2(1, 1), Vec2(2, 2), Vec2(0, 0)], [Vec2(2, 1), Vec2(2, 0), Vec2(1, 2), Vec2(0, 2), Vec2(1, 1), Vec2(0, 0)]) == [Vec2(0, 1), Vec2(0, 2), Vec2(1, 0), Vec2(2, 0), Vec2(1, 1), Vec2(2, 2), Vec2(0, 0), Vec2(2, 1), Vec2(1, 2)]
  {
    AllMagentaUnion1Step4();
    AddNewStep([Vec2(0, 1), Vec2(0, 2), Vec2(1, 0), Vec2(2, 0), Vec2(1, 1), Vec2(2, 2), Vec2(0, 0)], [Vec2(2, 1), Vec2(2, 0), Vec2(1, 2), Vec2(0, 2), Vec2(1, 1)], Vec2(0, 0));
    assert [Vec2(2, 1), Vec2(2, 0), Vec2(1, 2), Vec2(0, 2), Vec2(1, 1), Vec2(0, 0)] == [Vec2(2, 1), Vec2(2, 0), Vec2(1, 2), Vec2(0, 2), Vec2(1, 1)] + [Vec2(0, 0)];
  }

  lemma AllMagentaUnion1Step6()
    ensures AddNew([Vec2(0, 1), Vec2(0, 2), Vec2(1, 0), Vec2(2, 0), Vec2(1, 1), Vec2(2, 2), Vec2(0, 0)], [Vec2(2, 1), Vec2(2, 0), Vec2(1, 2), Vec2(0, 2), Vec2(1, 1), Vec2(0, 0), Vec2(2, 2)]) == [Vec2(0, 1), Vec2(0, 2), Vec2(1, 0), Vec2(2, 0), Vec2(1, 1), Vec2(2, 2), Vec2(0, 0), Vec2(2, 1), Vec2(1, 2)]
  {
    AllMagentaUnion1Step5();
    AddNewStep([Vec2(0, 1), Vec2(0, 2), Vec2(1, 0), Vec2(2, 0), Vec2(1, 1), Vec2(2, 2), Vec2(0, 0)], [Vec2(2, 1), Vec2(2, 0), Vec2(1, 2), Vec2(0, 2), Vec2(1, 1), Vec2(0, 0)], Vec2(2, 2));
    assert [Vec2(2, 1), Vec2(2, 0), Vec2(1, 2), Vec2(0, 2), Vec2(1, 1), Vec2(0, 0), Vec2(2, 2)] == [Vec2(2, 1), Vec2(2, 0), Vec2(1, 2), Vec2(0, 2), Vec2(1, 1), Vec2(0, 0)] + [Vec2(2, 2)];
  }

  /** Merging the matches of the first 2 origin(s), each cell once. */
  lemma AllMagentaUnion1()
    ensures Union([[Vec2(0, 1), Vec2(0, 2), Vec2(1, 0), Vec2(2, 0), Vec2(1, 1), Vec2(2, 2), Vec2(0, 0)], [Vec2(2, 1), Vec2(2, 0), Vec2(1, 2), Vec2(0, 2), Vec2(1, 1), Vec2(0, 0), Vec2(2, 2)]]) == [Vec2(0, 1), Vec2(0, 2), Vec2(1, 0), Vec2(2, 0), Vec2(1, 1), Vec2(2, 2), Vec2(0, 0), Vec2(2, 1), Vec2(1, 2)]
  {
    AllMagentaUnion0();
    UnionStep([[Vec2(0, 1), Vec2(0, 2), Vec2(1, 0), Vec2(2, 0), Vec2(1, 1), Vec2(2, 2), Vec2(0, 0)]], [Vec2(2, 1), Vec2(2, 0), Vec2(1, 2), Vec2(0, 2), Vec2(1, 1), Vec2(0, 0), Vec2(2, 2)]);
    assert [[Vec2(0, 1), Vec2(0, 2), Vec2(1, 0), Vec2(2, 0), Vec2(1, 1), Vec2(2, 2), Vec2(0, 0)], [Vec2(2, 1), Vec2(2, 0), Vec2(1, 2), Vec2(0, 2), Vec2(1, 1), Vec2(0, 0), Vec2(2, 2)]] == [[Vec2(0, 1), Vec2(0, 2), Vec2(1, 0), Vec2(2, 0), Vec2(1, 1), Vec2(2, 2), Vec2(0, 0)]] + [[Vec2(2, 1), Vec2(2, 0), Vec2(1, 2), Vec2(0, 2), Vec2(1, 1), Vec2(0, 0), Vec2(2, 2)]];
    AllMagentaUnion1Step6();
  }

  /** `collect_matching_at` at the test's origins. */
  lemma AllMagentaCollected()
    ensures CollectedMatches(AllMagenta(), [Vec2(0, 0), Vec2(2, 2)]) == [Vec2(0, 1), Vec2(0, 2), Vec2(1, 0), Vec2(2, 0), Vec2(1, 1), Vec2(2, 2), Vec2(0, 0), Vec2(2, 1), Vec2(1, 2)]
  {
    MatchLists2(AllMagenta(), Vec2(0, 0), Vec2(2, 2));
    AllMagenta00Matches();
    AllMagenta22Matches();
    AllMagentaUnion1();
  }

  /**
   * Each origin of the test on its own: the origin and its six line neighbours.
   * The test's list for (2, 2) names (2, 2) itself where (2, 1) is collected.
   */
  lemma AllMagentaAlone()
    ensures CollectedMatches(AllMagenta(), [Vec2(0, 0)]) == [Vec2(0, 1), Vec2(0, 2), Vec2(1, 0), Vec2(2, 0), Vec2(1, 1), Vec2(2, 2), Vec2(0, 0)]
    ensures CollectedMatches(AllMagenta(), [Vec2(2, 2)]) == [Vec2(2, 1), Vec2(2, 0), Vec2(1, 2), Vec2(0, 2), Vec2(1, 1), Vec2(0, 0), Vec2(2, 2)]
  {
    CollectedAtOne(AllMagenta(), Vec2(0, 0));
    AllMagenta00Matches();
    CollectedAtOne(AllMagenta(), Vec2(2, 2));
    AllMagenta22Matches();
  }
}
