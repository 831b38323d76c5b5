/**
 * The matching engine of the pit (`PitState::matching_at` and `collect_matching_at`):
 * from a seed cell, scan the four axes through it and keep every axis on which at
 * least two further cells of the seed's kind line up with it.
 */
module Matching {
  import opened Geometry
  import opened Blocks
  import opened Heaps

  /** The axis iterator: `Default` is only the starting point and yields the four real axes. */
  datatype CardinalAxis = Default | NxS | ExW | NExSW | NWxSE

  function Rank(a: CardinalAxis): nat
  {
    match a
    case Default => 0
    case NxS => 1
    case ExW => 2
    case NExSW => 3
    case NWxSE => 4
  }

  /** One step of the iterator: the axis that follows `a`, none after the last. */
  function Next(a: CardinalAxis): (r: Option<CardinalAxis>)
    ensures r.Some? ==> Rank(r.value) == Rank(a) + 1
    ensures r.None? <==> a == NWxSE
  {
    match a
    case Default => Some(NxS)
    case NxS => Some(ExW)
    case ExW => Some(NExSW)
    case NExSW => Some(NWxSE)
    case NWxSE => None
  }

  /** Everything the iterator yields when started at `a`. */
  function Remaining(a: CardinalAxis): (s: seq<CardinalAxis>)
    ensures |s| == 4 - Rank(a)
    ensures forall k :: 0 <= k < |s| ==> Rank(s[k]) == Rank(a) + k + 1
    decreases 4 - Rank(a)
  {
    match Next(a)
    case None => []
    case Some(b) => [b] + Remaining(b)
  }

  /** The fixed order the axes are scanned in. */
  lemma {:induction false} AxisOrder()
    ensures Remaining(Default) == [NxS, ExW, NExSW, NWxSE]
  {
    assert Remaining(NWxSE) == [];
    assert Remaining(NExSW) == [NWxSE];
    assert Remaining(ExW) == [NExSW, NWxSE];
    assert Remaining(NxS) == [ExW, NExSW, NWxSE];
  }

  /** The eight scan directions; each axis is scanned in its two directions. */
  datatype Dir = North | South | West | East | NorthEast | SouthWest | NorthWest | SouthEast

  /** The (possibly off-grid) cell `i` steps from `o` in direction `d`. */
  function Probe(o: Vec2, d: Dir, i: int): (int, int)
  {
    match d
    case North => (o.x, o.y - i)
    case South => (o.x, o.y + i)
    case West => (o.x - i, o.y)
    case East => (o.x + i, o.y)
    case NorthEast => (o.x + i, o.y - i)
    case SouthWest => (o.x - i, o.y + i)
    case NorthWest => (o.x - i, o.y - i)
    case SouthEast => (o.x + i, o.y + i)
  }

  predicate Inside(cols: int, rows: int, c: (int, int))
  {
    0 <= c.0 < cols && 0 <= c.1 < rows
  }

  /**
   * The exclusive end of the step index of each scan loop, written as the source
   * bounds it. Every step below it stays inside the grid and the end itself is
   * the first step outside: the scan runs exactly to the grid edge.
   */
  function Limit(cols: nat, rows: nat, o: Vec2, d: Dir): (n: nat)
    requires o.x < cols && o.y < rows
    ensures n >= 1
  {
    match d
    case North => o.y + 1
    case South => rows - o.y
    case West => o.x + 1
    case East => cols - o.x
    case NorthEast => Min(cols - o.x, o.y + 1)
    case SouthWest => Min(rows - o.y, o.x + 1)
    case NorthWest => Min(o.x, o.y) + 1
    case SouthEast => Min(cols - o.x, rows - o.y)
  }

  /** Every step below the bound stays inside the grid. */
  lemma LimitInside(cols: nat, rows: nat, o: Vec2, d: Dir, i: int)
    requires o.x < cols && o.y < rows && 1 <= i < Limit(cols, rows, o, d)
    ensures Inside(cols, rows, Probe(o, d, i))
  {
  }

  /** The bound itself is the first step outside the grid: each scan runs exactly to the edge. */
  lemma LimitOutside(cols: nat, rows: nat, o: Vec2, d: Dir)
    requires o.x < cols && o.y < rows
    ensures !Inside(cols, rows, Probe(o, d, Limit(cols, rows, o, d)))
  {
  }

  /** The diagonal loop bounds, spelled out per direction. */
  lemma DiagonalBounds(cols: nat, rows: nat, o: Vec2, i: nat)
    requires o.x < cols && o.y < rows && 1 <= i
    ensures i < Limit(cols, rows, o, NorthEast) ==> o.x + i < cols && i <= o.y
    ensures i < Limit(cols, rows, o, SouthWest) ==> o.y + i < rows && i <= o.x
    ensures i < Limit(cols, rows, o, NorthWest) ==> i <= o.x && i <= o.y
    ensures i < Limit(cols, rows, o, SouthEast) ==> o.x + i < cols && o.y + i < rows
  {
  }

  /** `p` lies strictly beyond `o` in direction `d`. */
  predicate OnRay(o: Vec2, d: Dir, p: Vec2)
  {
    match d
    case North => p.x == o.x && p.y < o.y
    case South => p.x == o.x && p.y > o.y
    case West => p.y == o.y && p.x < o.x
    case East => p.y == o.y && p.x > o.x
    case NorthEast => p.x > o.x && p.x - o.x == o.y - p.y
    case SouthWest => p.x < o.x && o.x - p.x == p.y - o.y
    case NorthWest => p.x < o.x && o.x - p.x == o.y - p.y
    case SouthEast => p.x > o.x && p.x - o.x == p.y - o.y
  }

  /** The in-grid cell `i` steps from `o`; it lies on the ray of `d`. */
  function Cell(cols: nat, rows: nat, o: Vec2, d: Dir, i: nat): (p: Vec2)
    requires o.x < cols && o.y < rows && 1 <= i < Limit(cols, rows, o, d)
    ensures p.x < cols && p.y < rows
  {
    LimitInside(cols, rows, o, d, i);
    var c := Probe(o, d, i);
    Vec2(c.0, c.1)
  }

  /** The cell `i` steps away is the probe's position, on the ray of `d`. */
  lemma CellOnRay(cols: nat, rows: nat, o: Vec2, d: Dir, i: nat)
    requires o.x < cols && o.y < rows && 1 <= i < Limit(cols, rows, o, d)
    ensures var p := Cell(cols, rows, o, d, i); (p.x, p.y) == Probe(o, d, i) && OnRay(o, d, p)
  {
  }

  /** Distinct steps in one direction reach distinct cells. */
  lemma ProbeInjective(o: Vec2, d: Dir, a: int, b: int)
    requires Probe(o, d, a) == Probe(o, d, b)
    ensures a == b
  {
  }

  /** No cell lies on two different rays from the same origin, nor is the origin on any. */
  lemma RaysDisjoint(o: Vec2, d1: Dir, d2: Dir, p: Vec2)
    requires OnRay(o, d1, p) && OnRay(o, d2, p)
    ensures d1 == d2 && p != o
  {
  }

  /** A scan in direction `d` ends at step `j`: the grid edge or a cell unequal to the origin. */
  predicate Stops(g: Grid, o: Vec2, d: Dir, j: nat)
    requires Rectangular(g) && InGrid(g, o) && 1 <= j <= Limit(|g|, Rows(g), o, d)
  {
    j == Limit(|g|, Rows(g), o, d) || !Get(g, Cell(|g|, Rows(g), o, d, j)).Eq(Get(g, o))
  }

  /**
   * How many steps a scan takes from step `i` on: it counts cells equal to the
   * origin's block and stops before the first unequal cell or at the grid edge.
   */
  function RunLength(g: Grid, o: Vec2, d: Dir, i: nat): (n: nat)
    requires Rectangular(g) && InGrid(g, o)
    requires 1 <= i <= Limit(|g|, Rows(g), o, d)
    ensures i + n <= Limit(|g|, Rows(g), o, d)
    decreases Limit(|g|, Rows(g), o, d) - i
  {
    if i == Limit(|g|, Rows(g), o, d) then 0
    else if !Get(g, Cell(|g|, Rows(g), o, d, i)).Eq(Get(g, o)) then 0
    else 1 + RunLength(g, o, d, i + 1)
  }

  /** One scan loop of `matching_at` from step `i` on: the cells it collects, nearest first. */
  function Ray(g: Grid, o: Vec2, d: Dir, i: nat): (r: seq<Vec2>)
    requires Rectangular(g) && InGrid(g, o)
    requires 1 <= i <= Limit(|g|, Rows(g), o, d)
    ensures |r| == RunLength(g, o, d, i)
  {
    var n := RunLength(g, o, d, i);
    seq(n, k requires 0 <= k < n => Cell(|g|, Rows(g), o, d, i + k))
  }

  /** Every step the scan counts holds a block equal to the origin's. */
  lemma {:induction false} RunMatches(g: Grid, o: Vec2, d: Dir, i: nat, k: nat)
    requires Rectangular(g) && InGrid(g, o)
    requires 1 <= i <= Limit(|g|, Rows(g), o, d)
    requires k < RunLength(g, o, d, i)
    ensures Get(g, Cell(|g|, Rows(g), o, d, i + k)).Eq(Get(g, o))
    decreases k
  {
    if k > 0 {
      RunMatches(g, o, d, i + 1, k - 1);
    }
  }

  /** The scan collects consecutive steps only, each holding a block equal to the origin's. */
  lemma RayCells(g: Grid, o: Vec2, d: Dir, i: nat)
    requires Rectangular(g) && InGrid(g, o)
    requires 1 <= i <= Limit(|g|, Rows(g), o, d)
    ensures forall k :: 0 <= k < |Ray(g, o, d, i)| ==>
              Ray(g, o, d, i)[k] == Cell(|g|, Rows(g), o, d, i + k) && Get(g, Ray(g, o, d, i)[k]).Eq(Get(g, o))
  {
    forall k | 0 <= k < |Ray(g, o, d, i)|
      ensures Ray(g, o, d, i)[k] == Cell(|g|, Rows(g), o, d, i + k) && Get(g, Ray(g, o, d, i)[k]).Eq(Get(g, o))
    {
      RunMatches(g, o, d, i, k);
    }
  }

  /** The scan runs on until the grid edge or the first cell unequal to the origin. */
  lemma {:induction false} RayStops(g: Grid, o: Vec2, d: Dir, i: nat)
    requires Rectangular(g) && InGrid(g, o)
    requires 1 <= i <= Limit(|g|, Rows(g), o, d)
    ensures Stops(g, o, d, i + |Ray(g, o, d, i)|)
    decreases Limit(|g|, Rows(g), o, d) - i
  {
    if i < Limit(|g|, Rows(g), o, d) && Get(g, Cell(|g|, Rows(g), o, d, i)).Eq(Get(g, o)) {
      RayStops(g, o, d, i + 1);
    }
  }

  /** The run length is the only count whose steps all match and after which the scan stops. */
  lemma {:induction false} RunLengthUnique(g: Grid, o: Vec2, d: Dir, i: nat, n: nat)
    requires Rectangular(g) && InGrid(g, o)
    requires 1 <= i && i + n <= Limit(|g|, Rows(g), o, d)
    requires forall k :: i <= k < i + n ==> Get(g, Cell(|g|, Rows(g), o, d, k)).Eq(Get(g, o))
    requires Stops(g, o, d, i + n)
    ensures RunLength(g, o, d, i) == n
    decreases n
  {
    if n > 0 {
      RunLengthUnique(g, o, d, i + 1, n - 1);
    }
  }

  /** A scan from the origin collects exactly `cells` when they are the matching steps before the scan stops. */
  lemma RayIs(g: Grid, o: Vec2, d: Dir, cells: seq<Vec2>)
    requires Rectangular(g) && InGrid(g, o)
    requires |cells| < Limit(|g|, Rows(g), o, d)
    requires forall k :: 0 <= k < |cells| ==>
               cells[k] == Cell(|g|, Rows(g), o, d, k + 1) && Get(g, cells[k]).Eq(Get(g, o))
    requires Stops(g, o, d, |cells| + 1)
    ensures Ray(g, o, d, 1) == cells
  {
    forall k | 1 <= k < 1 + |cells|
      ensures Get(g, Cell(|g|, Rows(g), o, d, k)).Eq(Get(g, o))
    {
      assert cells[k - 1] == Cell(|g|, Rows(g), o, d, k);
    }
    RunLengthUnique(g, o, d, 1, |cells|);
  }

  lemma RayFacts(g: Grid, o: Vec2, d: Dir)
    requires Rectangular(g) && InGrid(g, o)
    ensures NoDuplicates(Ray(g, o, d, 1))
    ensures forall p :: p in Ray(g, o, d, 1) ==> OnRay(o, d, p) && InGrid(g, p) && Get(g, p).Eq(Get(g, o))
  {
    var r := Ray(g, o, d, 1);
    RayCells(g, o, d, 1);
    forall k | 0 <= k < |r|
      ensures (r[k].x, r[k].y) == Probe(o, d, 1 + k) && OnRay(o, d, r[k])
    {
      CellOnRay(|g|, Rows(g), o, d, 1 + k);
    }
    forall i, j | 0 <= i < j < |r|
      ensures r[i] != r[j]
    {
      if r[i] == r[j] {
        ProbeInjective(o, d, 1 + i, 1 + j);
      }
    }
  }

  /** `p` lies on one of the two rays of the axis `a` through `o`. */
  predicate OnAxis(o: Vec2, a: CardinalAxis, p: Vec2)
  {
    match a
    case Default => false
    case NxS => OnRay(o, North, p) || OnRay(o, South, p)
    case ExW => OnRay(o, West, p) || OnRay(o, East, p)
    case NExSW => OnRay(o, NorthEast, p) || OnRay(o, SouthWest, p)
    case NWxSE => OnRay(o, NorthWest, p) || OnRay(o, SouthEast, p)
  }

  /** Distinct axes through one origin share no cell, and none contains the origin. */
  lemma AxesDisjoint(o: Vec2, a1: CardinalAxis, a2: CardinalAxis, p: Vec2)
    requires OnAxis(o, a1, p) && OnAxis(o, a2, p)
    ensures a1 == a2 && p != o
  {
  }

  /** The two scans of one axis, concatenated. */
  function Both(g: Grid, o: Vec2, d1: Dir, d2: Dir): seq<Vec2>
    requires Rectangular(g) && InGrid(g, o)
  {
    Ray(g, o, d1, 1) + Ray(g, o, d2, 1)
  }

  /** The two scans of an axis never collect a cell twice. */
  lemma BothFacts(g: Grid, o: Vec2, d1: Dir, d2: Dir)
    requires Rectangular(g) && InGrid(g, o) && d1 != d2
    ensures NoDuplicates(Both(g, o, d1, d2))
    ensures forall p :: p in Both(g, o, d1, d2) ==>
              (OnRay(o, d1, p) || OnRay(o, d2, p)) && InGrid(g, p) && Get(g, p).Eq(Get(g, o))
  {
    var r1 := Ray(g, o, d1, 1);
    var r2 := Ray(g, o, d2, 1);
    RayFacts(g, o, d1);
    RayFacts(g, o, d2);
    forall p | p in r1
      ensures p !in r2
    {
      if p in r2 { RaysDisjoint(o, d1, d2, p); }
    }
    NoDuplicatesConcatenation(r1, r2);
  }

  /** The cells the scan of one axis collects, both directions, in the source's order. */
  function Candidates(g: Grid, o: Vec2, a: CardinalAxis): seq<Vec2>
    requires Rectangular(g) && InGrid(g, o)
  {
    match a
    case Default => []
    case NxS => Both(g, o, North, South)
    case ExW => Both(g, o, West, East)
    case NExSW => Both(g, o, NorthEast, SouthWest)
    case NWxSE => Both(g, o, NorthWest, SouthEast)
  }

  /** An axis collects distinct cells of the grid, on the axis, equal to the origin. */
  lemma CandidatesFacts(g: Grid, o: Vec2, a: CardinalAxis)
    requires Rectangular(g) && InGrid(g, o)
    ensures NoDuplicates(Candidates(g, o, a))
    ensures forall p :: p in Candidates(g, o, a) ==> OnAxis(o, a, p) && InGrid(g, p) && Get(g, p).Eq(Get(g, o))
  {
    match a
    case Default =>
    case NxS => BothFacts(g, o, North, South);
    case ExW => BothFacts(g, o, West, East);
    case NExSW => BothFacts(g, o, NorthEast, SouthWest);
    case NWxSE => BothFacts(g, o, NorthWest, SouthEast);
  }

  /** Cells that two different axes collect never coincide, and the origin is on none. */
  lemma CandidatesDisjoint(g: Grid, o: Vec2, a1: CardinalAxis, a2: CardinalAxis, p: Vec2)
    requires Rectangular(g) && InGrid(g, o)
    requires p in Candidates(g, o, a1) && p in Candidates(g, o, a2)
    ensures a1 == a2 && p != o
  {
    CandidatesFacts(g, o, a1);
    CandidatesFacts(g, o, a2);
    AxesDisjoint(o, a1, a2, p);
  }

  /** An axis counts when its scans collected at least two cells: a run of three with the origin. */
  predicate Qualified(g: Grid, o: Vec2, a: CardinalAxis)
    requires Rectangular(g) && InGrid(g, o)
  {
    |Candidates(g, o, a)| >= 2
  }

  /** What one axis contributes: its candidates if it qualified, nothing otherwise. */
  function Kept(g: Grid, o: Vec2, a: CardinalAxis): seq<Vec2>
    requires Rectangular(g) && InGrid(g, o)
  {
    if Qualified(g, o, a) then Candidates(g, o, a) else []
  }

  /** The contributions of the axes `axes`, appended in order. */
  function AxisMatches(g: Grid, o: Vec2, axes: seq<CardinalAxis>): (r: seq<Vec2>)
    requires Rectangular(g) && InGrid(g, o)
  {
    if axes == [] then []
    else AxisMatches(g, o, axes[..|axes| - 1]) + Kept(g, o, axes[|axes| - 1])
  }

  /** The contributions of the four axes, in the iterator's order (`AllAxes`). */
  function Found(g: Grid, o: Vec2): seq<Vec2>
    requires Rectangular(g) && InGrid(g, o)
  {
    Kept(g, o, NxS) + Kept(g, o, ExW) + Kept(g, o, NExSW) + Kept(g, o, NWxSE)
  }

  /** Driving the iterator from its default state visits the four axes in order. */
  lemma AllAxes(g: Grid, o: Vec2)
    requires Rectangular(g) && InGrid(g, o)
    ensures AxisMatches(g, o, Remaining(Default)) == Found(g, o)
  {
    AxisOrder();
    var k1, k2, k3, k4 := Kept(g, o, NxS), Kept(g, o, ExW), Kept(g, o, NExSW), Kept(g, o, NWxSE);
    assert [NxS][..0] == [];
    assert AxisMatches(g, o, [NxS]) == [] + k1;
    assert [] + k1 == k1;
    assert [NxS, ExW][..1] == [NxS];
    assert AxisMatches(g, o, [NxS, ExW]) == k1 + k2;
    assert [NxS, ExW, NExSW][..2] == [NxS, ExW];
    assert AxisMatches(g, o, [NxS, ExW, NExSW]) == k1 + k2 + k3;
    assert [NxS, ExW, NExSW, NWxSE][..3] == [NxS, ExW, NExSW];
  }

  /** Some axis through the origin qualified. */
  predicate AnyQualified(g: Grid, o: Vec2)
    requires Rectangular(g) && InGrid(g, o)
  {
    Qualified(g, o, NxS) || Qualified(g, o, ExW) || Qualified(g, o, NExSW) || Qualified(g, o, NWxSE)
  }

  /** `p` was collected on an axis that qualified. */
  predicate OnQualifiedAxis(g: Grid, o: Vec2, p: Vec2)
    requires Rectangular(g) && InGrid(g, o)
  {
    || (Qualified(g, o, NxS) && p in Candidates(g, o, NxS))
    || (Qualified(g, o, ExW) && p in Candidates(g, o, ExW))
    || (Qualified(g, o, NExSW) && p in Candidates(g, o, NExSW))
    || (Qualified(g, o, NWxSE) && p in Candidates(g, o, NWxSE))
  }

  /**
   * `matching_at`: nothing for an empty origin; otherwise the cells of every axis
   * that qualified, in the iterator's axis order (`AllAxes`), followed by the
   * origin itself once if any did.
   */
  function MatchesAt(g: Grid, o: Vec2): (r: seq<Vec2>)
    requires Rectangular(g) && InGrid(g, o)
    ensures Get(g, o).Empty() ==> r == []
  {
    if Get(g, o).Empty() then []
    else
      var items := Found(g, o);
      if items == [] then [] else items + [o]
  }

  /** Every matched cell lies in the grid and holds a non-empty block equal to the origin's. */
  lemma MatchesAtCells(g: Grid, o: Vec2)
    requires Rectangular(g) && InGrid(g, o)
    ensures forall p :: p in MatchesAt(g, o) ==> InGrid(g, p) && Get(g, p).Eq(Get(g, o)) && !Get(g, p).Empty()
  {
    CandidatesFacts(g, o, NxS);
    CandidatesFacts(g, o, ExW);
    CandidatesFacts(g, o, NExSW);
    CandidatesFacts(g, o, NWxSE);
  }

  /**
   * Exactly which cells a match holds: the origin when some axis qualified, and
   * every cell of every qualifying axis; nothing else.
   */
  lemma MatchesAtMembers(g: Grid, o: Vec2, p: Vec2)
    requires Rectangular(g) && InGrid(g, o)
    ensures p in MatchesAt(g, o) <==>
              !Get(g, o).Empty() && AnyQualified(g, o) && (p == o || OnQualifiedAxis(g, o, p))
  {
    if !Get(g, o).Empty() && AnyQualified(g, o) {
      var items := Found(g, o);
      if Qualified(g, o, NxS) { assert Candidates(g, o, NxS)[0] in items; }
      else if Qualified(g, o, ExW) { assert Candidates(g, o, ExW)[0] in items; }
      else if Qualified(g, o, NExSW) { assert Candidates(g, o, NExSW)[0] in items; }
      else { assert Candidates(g, o, NWxSE)[0] in items; }
    }
  }

  /** One axis contributes distinct cells, all on that axis. */
  lemma KeptFacts(g: Grid, o: Vec2, a: CardinalAxis)
    requires Rectangular(g) && InGrid(g, o)
    ensures NoDuplicates(Kept(g, o, a))
    ensures forall p :: p in Kept(g, o, a) ==> OnAxis(o, a, p) && p != o
  {
    CandidatesFacts(g, o, a);
    forall p | p in Kept(g, o, a)
      ensures p != o
    {
      AxesDisjoint(o, a, a, p);
    }
  }

  /** Two different axes contribute no common cell. */
  lemma KeptDisjoint(g: Grid, o: Vec2, a1: CardinalAxis, a2: CardinalAxis)
    requires Rectangular(g) && InGrid(g, o) && a1 != a2
    ensures forall p :: p in Kept(g, o, a1) ==> p !in Kept(g, o, a2)
  {
    KeptFacts(g, o, a1);
    KeptFacts(g, o, a2);
    forall p | p in Kept(g, o, a1) && p in Kept(g, o, a2)
      ensures false
    {
      AxesDisjoint(o, a1, a2, p);
    }
  }

  /** The four contributions together hold no cell twice, and never the origin. */
  lemma FoundFacts(g: Grid, o: Vec2)
    requires Rectangular(g) && InGrid(g, o)
    ensures NoDuplicates(Found(g, o)) && o !in Found(g, o)
  {
    var k1, k2, k3, k4 := Kept(g, o, NxS), Kept(g, o, ExW), Kept(g, o, NExSW), Kept(g, o, NWxSE);
    KeptFacts(g, o, NxS);
    KeptFacts(g, o, ExW);
    KeptFacts(g, o, NExSW);
    KeptFacts(g, o, NWxSE);
    KeptDisjoint(g, o, NxS, ExW);
    KeptDisjoint(g, o, NxS, NExSW);
    KeptDisjoint(g, o, ExW, NExSW);
    KeptDisjoint(g, o, NxS, NWxSE);
    KeptDisjoint(g, o, ExW, NWxSE);
    KeptDisjoint(g, o, NExSW, NWxSE);
    NoDuplicatesConcatenation(k1, k2);
    NoDuplicatesConcatenation(k1 + k2, k3);
    NoDuplicatesConcatenation(k1 + k2 + k3, k4);
  }

  /**
   * The shape of a match: duplicate-free (cells of different axes never coincide);
   * non-empty exactly when the origin is non-empty and some axis qualified; the
   * origin comes last and only there.
   */
  lemma MatchesAtShape(g: Grid, o: Vec2)
    requires Rectangular(g) && InGrid(g, o)
    ensures NoDuplicates(MatchesAt(g, o))
    ensures MatchesAt(g, o) != [] <==> !Get(g, o).Empty() && AnyQualified(g, o)
    ensures var r := MatchesAt(g, o); r != [] ==> r[|r| - 1] == o && o !in r[..|r| - 1]
  {
    MatchesAtMembers(g, o, o);
    FoundFacts(g, o);
    var items := Found(g, o);
    if MatchesAt(g, o) != [] {
      NoDuplicatesConcatenation(items, [o]);
      assert (items + [o])[..|items|] == items;
    }
  }

  /** Appends the cells of `s` not yet present, left to right (the cache of `collect_matching_at`). */
  function AddNew(acc: seq<Vec2>, s: seq<Vec2>): (r: seq<Vec2>)
    ensures forall p :: p in r <==> p in acc || p in s
    ensures NoDuplicates(acc) ==> NoDuplicates(r)
  {
    if s == [] then acc
    else
      var a := AddNew(acc, s[..|s| - 1]);
      var e := s[|s| - 1];
      assert s == s[..|s| - 1] + [e];
      if e in a then a else a + [e]
  }

  /** The cells of the lists `ms`, each once, in first-found order. */
  function Union(ms: seq<seq<Vec2>>): (r: seq<Vec2>)
    ensures NoDuplicates(r)
  {
    if ms == [] then [] else AddNew(Union(ms[..|ms| - 1]), ms[|ms| - 1])
  }

  /** A cell is in the union exactly when some list holds it. */
  lemma {:induction false} UnionMembers(ms: seq<seq<Vec2>>, p: Vec2)
    ensures p in Union(ms) <==> exists k :: 0 <= k < |ms| && p in ms[k]
  {
    if ms != [] {
      var front := ms[..|ms| - 1];
      UnionMembers(front, p);
      if p in Union(ms) && p !in Union(front) {
        assert p in ms[|ms| - 1];
      }
      if exists k :: 0 <= k < |ms| && p in ms[k] {
        var k :| 0 <= k < |ms| && p in ms[k];
        if k < |ms| - 1 {
          assert front[k] == ms[k];
        }
      }
    }
  }

  /** The match of each origin, in order. */
  function MatchLists(g: Grid, os: seq<Vec2>): (ms: seq<seq<Vec2>>)
    requires Rectangular(g) && AllInGrid(g, os)
    ensures |ms| == |os|
  {
    seq(|os|, k requires 0 <= k < |os| => MatchesAt(g, os[k]))
  }

  /** `collect_matching_at`: the matches of every origin, each cell once, in first-found order. */
  function CollectedMatches(g: Grid, os: seq<Vec2>): (r: seq<Vec2>)
    requires Rectangular(g) && AllInGrid(g, os)
    ensures NoDuplicates(r)
    ensures AllInGrid(g, r)
  {
    var ms := MatchLists(g, os);
    var r := Union(ms);
    forall k | 0 <= k < |r|
      ensures InGrid(g, r[k])
    {
      UnionMembers(ms, r[k]);
      var i :| 0 <= i < |ms| && r[k] in ms[i];
      MatchesAtCells(g, os[i]);
    }
    r
  }

  /** Collecting one more origin adds the unseen cells of its match. */
  lemma CollectStep(g: Grid, os: seq<Vec2>, i: nat)
    requires Rectangular(g) && AllInGrid(g, os) && i < |os|
    ensures Union(MatchLists(g, os[..i + 1])) == AddNew(Union(MatchLists(g, os[..i])), MatchesAt(g, os[i]))
  {
    assert MatchLists(g, os[..i + 1])[..i] == MatchLists(g, os[..i]);
  }

  /** As a set, the collected matches are the union of the matches of the origins. */
  lemma CollectedMatchesMembers(g: Grid, os: seq<Vec2>, p: Vec2)
    requires Rectangular(g) && AllInGrid(g, os)
    ensures p in CollectedMatches(g, os) <==> exists k :: 0 <= k < |os| && p in MatchesAt(g, os[k])
  {
    var ms := MatchLists(g, os);
    UnionMembers(ms, p);
    if p in CollectedMatches(g, os) {
      var k :| 0 <= k < |ms| && p in ms[k];
      assert p in MatchesAt(g, os[k]);
    }
    if exists k :: 0 <= k < |os| && p in MatchesAt(g, os[k]) {
      var k :| 0 <= k < |os| && p in MatchesAt(g, os[k]);
      assert p in ms[k];
    }
  }

  /** One step of the count: the cell `i` steps away either ends the run or extends it. */
  lemma RunStep(g: Grid, o: Vec2, d: Dir, i: nat)
    requires Rectangular(g) && InGrid(g, o)
    requires 1 <= i < Limit(|g|, Rows(g), o, d)
    ensures RunLength(g, o, d, i) ==
              if Get(g, Cell(|g|, Rows(g), o, d, i)).Eq(Get(g, o)) then 1 + RunLength(g, o, d, i + 1) else 0
  {
  }

  /** The scan's first `i` cells are its first `i - 1` and then the cell `i` steps away. */
  lemma RayPrefixStep(g: Grid, o: Vec2, d: Dir, i: nat)
    requires Rectangular(g) && InGrid(g, o)
    requires 1 <= i <= RunLength(g, o, d, 1)
    ensures Ray(g, o, d, 1)[..i] == Ray(g, o, d, 1)[..i - 1] + [Cell(|g|, Rows(g), o, d, i)]
  {
  }

  /** One scan loop of `matching_at`: walk direction `d` from `o` while cells equal the origin's block. */
  method Scan(heap: array2<Block>, o: Vec2, d: Dir) returns (matches: seq<Vec2>)
    requires InArray(heap, o)
    ensures matches == Ray(Cells(heap), o, d, 1)
  {
    ghost var g := Cells(heap);
    var cols, rows := heap.Length0, heap.Length1;
    assert cols == |g| && rows == Rows(g);
    var n := Limit(cols, rows, o, d);
    var originItem := heap[o.x, o.y];
    assert originItem == Get(g, o);
    matches := [];
    var i: nat := 1;
    while i < n
      invariant 1 <= i <= n
      invariant RunLength(g, o, d, 1) == (i - 1) + RunLength(g, o, d, i)
      invariant matches == Ray(g, o, d, 1)[..i - 1]
    {
      var p := Cell(cols, rows, o, d, i);
      assert heap[p.x, p.y] == Get(g, p);
      RunStep(g, o, d, i);
      if !heap[p.x, p.y].Eq(originItem) {
        break;
      }
      RayPrefixStep(g, o, d, i);
      matches := matches + [p];
      i := i + 1;
    }
    assert RunLength(g, o, d, i) == 0;
    assert Ray(g, o, d, 1)[..i - 1] == Ray(g, o, d, 1);
  }

  /** The two scans that make up one axis, in the order the source runs them. */
  method ScanAxis(heap: array2<Block>, o: Vec2, a: CardinalAxis) returns (matches: seq<Vec2>)
    requires InArray(heap, o)
    ensures matches == Candidates(Cells(heap), o, a)
  {
    match a
    case Default =>
      matches := [];
    case NxS =>
      var north := Scan(heap, o, North);
      var south := Scan(heap, o, South);
      matches := north + south;
    case ExW =>
      var west := Scan(heap, o, West);
      var east := Scan(heap, o, East);
      matches := west + east;
    case NExSW =>
      var northEast := Scan(heap, o, NorthEast);
      var southWest := Scan(heap, o, SouthWest);
      matches := northEast + southWest;
    case NWxSE =>
      var northWest := Scan(heap, o, NorthWest);
      var southEast := Scan(heap, o, SouthEast);
      matches := northWest + southEast;
  }

  /** Scanning one more axis of the list appends its contribution. */
  lemma AxisMatchesPrefix(g: Grid, o: Vec2, axes: seq<CardinalAxis>, k: nat)
    requires Rectangular(g) && InGrid(g, o) && k < |axes|
    ensures AxisMatches(g, o, axes[..k + 1]) == AxisMatches(g, o, axes[..k]) + Kept(g, o, axes[k])
  {
    assert axes[..k + 1][..k] == axes[..k];
  }

  /** The axis loop of `matching_at`: drive the iterator from its default state, keeping qualified axes. */
  method ScanAxes(heap: array2<Block>, o: Vec2) returns (items: seq<Vec2>)
    requires InArray(heap, o)
    ensures items == AxisMatches(Cells(heap), o, Remaining(Default))
  {
    ghost var g := Cells(heap);
    items := [];
    var axes := Remaining(Default);
    for k := 0 to |axes|
      invariant items == AxisMatches(g, o, axes[..k])
    {
      var matches := ScanAxis(heap, o, axes[k]);
      if |matches| >= 2 {
        items := items + matches;
      }
      AxisMatchesPrefix(g, o, axes, k);
    }
    assert axes[..|axes|] == axes;
  }

  /** `PitState::matching_at`: nothing for an empty origin, else the axis matches and then the origin. */
  method MatchingAt(heap: array2<Block>, o: Vec2) returns (items: seq<Vec2>)
    requires InArray(heap, o)
    ensures items == MatchesAt(Cells(heap), o)
  {
    items := [];
    var originItem := heap[o.x, o.y];
    if originItem.Empty() {
      return;
    }
    items := ScanAxes(heap, o);
    AllAxes(Cells(heap), o);
    if items != [] {
      items := items + [o];
    }
  }

  /** Every matched cell indexes the heap array. */
  lemma MatchesInArray(heap: array2<Block>, o: Vec2)
    requires InArray(heap, o)
    ensures var m := MatchesAt(Cells(heap), o);
      forall k :: 0 <= k < |m| ==> m[k].x < heap.Length0 && m[k].y < heap.Length1
  {
    var m := MatchesAt(Cells(heap), o);
    MatchesAtCells(Cells(heap), o);
    assert forall k :: 0 <= k < |m| ==> m[k] in m;
  }

  /** The cache marks exactly the cells already in `items`. */
  ghost predicate Caches(cache: array2<bool>, items: seq<Vec2>)
    reads cache
  {
    forall x, y :: 0 <= x < cache.Length0 && 0 <= y < cache.Length1 ==>
      (cache[x, y] <==> Vec2(x, y) in items)
  }

  /** The inner loop of `collect_matching_at`: push every cell of `found` the cache has not seen. */
  method PushUnseen(cache: array2<bool>, items: seq<Vec2>, found: seq<Vec2>) returns (r: seq<Vec2>)
    requires forall k :: 0 <= k < |found| ==> found[k].x < cache.Length0 && found[k].y < cache.Length1
    requires Caches(cache, items)
    modifies cache
    ensures r == AddNew(items, found)
    ensures Caches(cache, r)
  {
    r := items;
    for j := 0 to |found|
      invariant r == AddNew(items, found[..j])
      invariant Caches(cache, r)
    {
      var item := found[j];
      assert found[..j + 1][..j] == found[..j];
      assert found[..j + 1][j] == item;
      if !cache[item.x, item.y] {
        cache[item.x, item.y] := true;
        r := r + [item];
      }
    }
    assert found[..|found|] == found;
  }

  /**
   * `PitState::collect_matching_at`: the matches of every origin, a cell entering
   * the result only the first time the cache sees it.
   */
  method CollectMatchingAt(heap: array2<Block>, origins: seq<Vec2>) returns (items: seq<Vec2>)
    requires forall k :: 0 <= k < |origins| ==> InArray(heap, origins[k])
    ensures items == CollectedMatches(Cells(heap), origins)
  {
    ghost var g := Cells(heap);
    assert AllInGrid(g, origins);
    items := [];
    var cache := new bool[heap.Length0, heap.Length1]((x, y) => false);
    for i := 0 to |origins|
      invariant items == Union(MatchLists(g, origins[..i]))
      invariant Caches(cache, items)
    {
      var found := MatchingAt(heap, origins[i]);
      MatchesInArray(heap, origins[i]);
      items := PushUnseen(cache, items, found);
      CollectStep(g, origins, i);
    }
    assert origins[..|origins|] == origins;
  }
}
