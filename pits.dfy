/**
 * The cascade state machine of the pit (`Pit::update`): a landed piece is
 * matched, the matched blocks blink and are cleared, the blocks above fall, and
 * matching starts again until nothing matches and the pit is stable.
 */
module Pits {
  import opened Geometry
  import opened Blocks
  import opened Heaps
  import opened Timing
  import opened Columns
  import M = Matching
  import G = Gravity

  /** `PitState::MOVE_MILLIS`: the interval of the pit's stage timer. */
  const PitMoveMillis: nat := 1000

  /** How many blink ticks the matched blocks show before they are cleared. */
  const BlinkTicks: nat := 3

  datatype PitStage = Stable | Matching | Collecting | Dropping

  /** The cells at `os` each lose their kind and their exploding flag. */
  function Clear(g: Grid, os: seq<Vec2>): (r: Grid)
    requires Rectangular(g) && AllInGrid(g, os)
    ensures SameShape(r, g)
  {
    if os == [] then g
    else
      var h := Clear(g, os[..|os| - 1]);
      var o := os[|os| - 1];
      Set(h, o, Get(h, o).(exploding := false).Update(None))
  }

  /** The cells at `os` each get the exploding flag `flag`, keeping their kind. */
  function Mark(g: Grid, os: seq<Vec2>, flag: bool): (r: Grid)
    requires Rectangular(g) && AllInGrid(g, os)
    ensures SameShape(r, g)
  {
    if os == [] then g
    else
      var h := Mark(g, os[..|os| - 1], flag);
      var o := os[|os| - 1];
      Set(h, o, Get(h, o).(exploding := flag))
  }

  /** Clearing empties exactly the listed cells, to a block without kind or flag. */
  lemma {:induction false} ClearCell(g: Grid, os: seq<Vec2>, x: nat, y: nat)
    requires Rectangular(g) && AllInGrid(g, os) && x < |g| && y < Rows(g)
    ensures Clear(g, os)[x][y] == if Vec2(x, y) in os then Block(None, false) else g[x][y]
  {
    if os != [] {
      var front := os[..|os| - 1];
      ClearCell(g, front, x, y);
      assert Vec2(x, y) in os <==> Vec2(x, y) in front || Vec2(x, y) == os[|os| - 1];
    }
  }

  /** Marking sets the flag on exactly the listed cells and changes nothing else. */
  lemma {:induction false} MarkCell(g: Grid, os: seq<Vec2>, flag: bool, x: nat, y: nat)
    requires Rectangular(g) && AllInGrid(g, os) && x < |g| && y < Rows(g)
    ensures Mark(g, os, flag)[x][y] == if Vec2(x, y) in os then g[x][y].(exploding := flag) else g[x][y]
  {
    if os != [] {
      var front := os[..|os| - 1];
      MarkCell(g, front, flag, x, y);
      assert Vec2(x, y) in os <==> Vec2(x, y) in front || Vec2(x, y) == os[|os| - 1];
    }
  }

  /** Marking changes no kind: every kind keeps its count. */
  lemma {:induction false} MarkKinds(g: Grid, os: seq<Vec2>, flag: bool, k: Option<BlockKind>)
    requires Rectangular(g) && AllInGrid(g, os)
    ensures G.Count(Mark(g, os, flag), k) == G.Count(g, k)
  {
    if os != [] {
      var h := Mark(g, os[..|os| - 1], flag);
      var o := os[|os| - 1];
      MarkKinds(g, os[..|os| - 1], flag, k);
      G.CountUpdate(h, o, Get(h, o).(exploding := flag), k);
    }
  }

  /** Clearing fills no cell, and empties at least one more when some listed cell holds a block. */
  lemma {:induction false} ClearEmpties(g: Grid, os: seq<Vec2>)
    requires Rectangular(g) && AllInGrid(g, os)
    ensures G.Count(Clear(g, os), None) >= G.Count(g, None)
    ensures (exists k :: 0 <= k < |os| && !Get(g, os[k]).Empty()) ==> G.Count(Clear(g, os), None) > G.Count(g, None)
  {
    if os != [] {
      var front := os[..|os| - 1];
      var o := os[|os| - 1];
      var h := Clear(g, front);
      ClearEmpties(g, front);
      G.CountUpdate(h, o, Get(h, o).(exploding := false).Update(None), None);
      if exists k :: 0 <= k < |os| && !Get(g, os[k]).Empty() {
        var k :| 0 <= k < |os| && !Get(g, os[k]).Empty();
        if k < |front| {
          assert front[k] == os[k];
        } else if o in front {
          var j :| 0 <= j < |front| && front[j] == o;
          assert !Get(g, front[j]).Empty();
        } else {
          ClearCell(g, front, o.x, o.y);
        }
      }
    }
  }

  /** The value of a pit: its heap and the fields of its `PitState`, with the active cells. */
  datatype PitView = PitView(heap: Grid, stage: PitStage, timer: TimerState, times: nat, active: seq<Vec2>) {

    /** `stable`. */
    predicate IsStable()
    {
      stage == Stable
    }

    /** `topped_up`: stable, and some column holds a block in its top row. */
    predicate ToppedUp()
      requires IsHeap(heap)
    {
      IsStable() && exists x :: 0 <= x < NumCols && !Get(heap, Vec2(x, 0)).Empty()
    }
  }

  /** `Pit::default`: an empty heap, stable, a fresh timer, no blink ticks and no active cells. */
  function Initial(): (p: PitView)
    ensures Inv(p) && Armed(p)
  {
    PitView(EmptyHeap(), Stable, TimerState.FromMillis(PitMoveMillis), 0, [])
  }

  /**
   * What `update` keeps: a heap of the pit's size holding every active cell, the
   * stage timer's interval, no active cell exactly in the stable stage, and a blink
   * counter of at most 3 that is 0 outside the collecting stage.
   */
  predicate Inv(p: PitView)
  {
    && IsHeap(p.heap) && AllInGrid(p.heap, p.active)
    && p.timer.millis == PitMoveMillis
    && (p.active == [] <==> p.stage == Stable)
    && p.times <= BlinkTicks && (p.stage != Collecting ==> p.times == 0)
  }

  /** The stable stage: when the stage timer runs out, check whether the piece lands. */
  function StepStable(p: PitView, c: ColumnState, delta: nat): (r: (PitView, ColumnState))
    requires Inv(p) && c.Valid()
  {
    var t := p.timer.Update(delta);
    if !t.ready then (p.(timer := t), c)
    else
      var l := c.Land(p.heap, delta);
      if l.origins.Some? then (p.(heap := l.grid, timer := t, active := l.origins.value, stage := Matching), l.column)
      else (p.(timer := t.Reset()), l.column)
  }

  /** The matching stage: the active cells become everything that matches at them. */
  function StepMatching(p: PitView): (r: PitView)
    requires Inv(p)
  {
    var a := M.CollectedMatches(p.heap, p.active);
    p.(active := a, stage := if a == [] then Stable else Collecting)
  }

  /** The end of the collecting stage: the active cells are cleared and the blocks above them become active. */
  function StepClear(p: PitView): (r: PitView)
    requires Inv(p)
  {
    var h := Clear(p.heap, p.active);
    var a := G.Dropping(h, p.active);
    p.(times := 0, heap := h, active := a, stage := if a == [] then Stable else Dropping)
  }

  /** A blink of the collecting stage: on a tick of the timer the active cells' flags flip to the new count's parity. */
  function StepBlink(p: PitView, delta: nat): (r: PitView)
    requires Inv(p)
  {
    var t := p.timer.Update(delta);
    if !t.ready then p.(timer := t)
    else
      var n := p.times + 1;
      var h := if p.active != [] then Mark(p.heap, p.active, n % 2 != 0) else p.heap;
      p.(timer := t.Reset(), times := n, heap := h)
  }

  /**
   * The collecting stage: on each tick of the timer the active cells blink; after
   * the third tick they are cleared and the blocks above them become active.
   */
  function StepCollecting(p: PitView, delta: nat): (r: PitView)
    requires Inv(p)
  {
    if p.times == BlinkTicks then StepClear(p) else StepBlink(p, delta)
  }

  /** The dropping stage: on each tick every active block falls a row if it can; when none can, match again. */
  function StepDropping(p: PitView, delta: nat): (r: PitView)
    requires Inv(p)
  {
    var t := p.timer.Update(delta);
    if !t.ready then p.(timer := t)
    else
      var d := G.DropPass(p.heap, p.active);
      p.(timer := t.Reset(), heap := d.grid, active := d.origins, stage := if d.dropped then Dropping else Matching)
  }

  /** `Pit::update`: one call, on the pit and the falling piece. */
  function Step(p: PitView, c: ColumnState, delta: nat): (r: (PitView, ColumnState))
    requires Inv(p) && c.Valid()
  {
    match p.stage
    case Stable => StepStable(p, c, delta)
    case Matching => (StepMatching(p), c)
    case Collecting => (StepCollecting(p, delta), c)
    case Dropping => (StepDropping(p, delta), c)
  }

  /** The stable stage keeps the invariant, and the piece stays valid whether or not it lands. */
  lemma StableKeepsInv(p: PitView, c: ColumnState, delta: nat)
    requires Inv(p) && c.Valid() && p.stage == Stable
    ensures Inv(StepStable(p, c, delta).0) && StepStable(p, c, delta).1.Valid()
  {
    if p.timer.Update(delta).ready {
      LandWrites(c, p.heap, delta);
    }
  }

  /** Clearing keeps the invariant: every block found above a cleared cell lies in the heap. */
  lemma ClearKeepsInv(p: PitView)
    requires Inv(p) && p.stage == Collecting && p.times == BlinkTicks
    ensures Inv(StepClear(p))
  {
    var h := Clear(p.heap, p.active);
    var a := G.Dropping(h, p.active);
    G.UnsupportedCells(h, p.active);
    forall k | 0 <= k < |a|
      ensures InGrid(h, a[k])
    {
      G.DroppingMembers(h, p.active, a[k]);
    }
  }

  /** Every call of `update` keeps the invariant, and keeps the piece valid. */
  lemma StepKeepsInv(p: PitView, c: ColumnState, delta: nat)
    requires Inv(p) && c.Valid()
    ensures Inv(Step(p, c, delta).0) && Step(p, c, delta).1.Valid()
  {
    match p.stage
    case Stable => StableKeepsInv(p, c, delta);
    case Matching =>
    case Collecting =>
      if p.times == BlinkTicks {
        ClearKeepsInv(p);
      }
    case Dropping =>
  }

  /** The stages follow Stable → Matching → Collecting → Dropping → Matching, or return to Stable. */
  lemma StageOrder(p: PitView, c: ColumnState, delta: nat)
    requires Inv(p) && c.Valid()
    ensures var s := Step(p, c, delta).0.stage;
      && (p.stage == Stable ==> s == Stable || s == Matching)
      && (p.stage == Matching ==> s == Stable || s == Collecting)
      && (p.stage == Collecting ==> s == Collecting || s == Dropping || s == Stable)
      && (p.stage == Dropping ==> s == Dropping || s == Matching)
  {
  }

  /**
   * Only the stable stage touches the piece: it lands there when the stage timer
   * and the piece's own timer copy are both ready and the piece is blocked below,
   * and the written cells become the active ones.
   */
  lemma StableStep(p: PitView, c: ColumnState, delta: nat)
    requires Inv(p) && c.Valid()
    ensures p.stage != Stable ==> Step(p, c, delta).1 == c
    ensures p.stage == Stable ==>
      var r := Step(p, c, delta);
      var l := c.Land(p.heap, delta);
      && (r.0.stage == Matching <==> p.timer.Update(delta).ready && l.origins.Some?)
      && (r.0.stage == Matching ==> r.0.heap == l.grid && r.0.active == l.origins.value && r.1 == l.column)
      && (r.0.stage == Stable ==> r.0.heap == p.heap && r.0.active == [] && r.1 == c)
  {
  }

  /** Matching keeps the heap; the new active cells are exactly those matching at some old one, once each. */
  lemma MatchingStep(p: PitView, c: ColumnState, delta: nat, q: Vec2)
    requires Inv(p) && c.Valid() && p.stage == Matching
    ensures var r := Step(p, c, delta).0;
      && r.heap == p.heap && r.times == 0 && r.timer == p.timer && NoDuplicates(r.active)
      && (q in r.active <==> exists k :: 0 <= k < |p.active| && q in M.MatchesAt(p.heap, p.active[k]))
  {
    M.CollectedMatchesMembers(p.heap, p.active, q);
  }

  /**
   * A blink tick: when the stage timer runs out before the third tick, the counter
   * goes up and every active cell shows `exploding` exactly when the count is odd,
   * keeping its kind; no other cell and no active cell changes.
   */
  lemma CollectingBlinks(p: PitView, c: ColumnState, delta: nat, x: nat, y: nat)
    requires Inv(p) && c.Valid() && p.stage == Collecting && p.times < BlinkTicks
    requires p.timer.Update(delta).ready && x < NumCols && y < NumRows
    ensures var r := Step(p, c, delta).0;
      && r.stage == Collecting && r.times == p.times + 1 && r.active == p.active
      && r.timer == TimerState.FromMillis(PitMoveMillis)
      && r.heap[x][y] == if Vec2(x, y) in p.active then p.heap[x][y].(exploding := r.times % 2 == 1) else p.heap[x][y]
  {
    MarkCell(p.heap, p.active, (p.times + 1) % 2 != 0, x, y);
  }

  /** Between ticks the collecting stage only counts its timer down. */
  lemma CollectingWaits(p: PitView, c: ColumnState, delta: nat)
    requires Inv(p) && c.Valid() && p.stage == Collecting && p.times < BlinkTicks
    requires !p.timer.Update(delta).ready
    ensures Step(p, c, delta).0 == p.(timer := p.timer.Update(delta))
  {
  }

  /**
   * After the third tick every active cell is emptied with its flag off, nothing
   * else in the heap changes, the counter returns to 0 and the blocks left
   * hanging above the cleared cells become the active ones.
   */
  lemma CollectingClears(p: PitView, c: ColumnState, delta: nat, x: nat, y: nat)
    requires Inv(p) && c.Valid() && p.stage == Collecting && p.times == BlinkTicks
    requires x < NumCols && y < NumRows
    ensures var r := Step(p, c, delta).0;
      && r.times == 0 && r.timer == p.timer
      && r.heap[x][y] == (if Vec2(x, y) in p.active then Block(None, false) else p.heap[x][y])
      && r.active == G.Dropping(r.heap, p.active)
      && (r.stage == Stable <==> r.active == [])
  {
    ClearCell(p.heap, p.active, x, y);
  }

  /**
   * A dropping tick either moves some block, lowering how far the active blocks
   * can still fall, or moves none, and then the heap and active cells stay and
   * matching starts again. No tick creates or destroys a block of any kind.
   */
  lemma DroppingProgress(p: PitView, c: ColumnState, delta: nat, k: Option<BlockKind>)
    requires Inv(p) && c.Valid() && p.stage == Dropping
    ensures var r := Step(p, c, delta).0;
      && G.Count(r.heap, k) == G.Count(p.heap, k)
      && (!p.timer.Update(delta).ready ==> r == p.(timer := p.timer.Update(delta)))
      && (p.timer.Update(delta).ready ==>
            && r.timer == TimerState.FromMillis(PitMoveMillis) && |r.active| == |p.active|
            && (r.stage == Dropping ==> G.Headroom(NumRows, r.active) < G.Headroom(NumRows, p.active))
            && (r.stage == Matching ==> r.heap == p.heap && r.active == p.active))
  {
    if p.timer.Update(delta).ready {
      G.DropPassProgress(p.heap, p.active);
      G.DropPassKinds(p.heap, p.active, k);
    }
  }

  /**
   * In the collecting stage every active cell holds a block: the blocks that
   * blink and are then cleared are the matched ones.
   */
  predicate Armed(p: PitView)
    requires Inv(p)
  {
    p.stage == Collecting ==> forall k :: 0 <= k < |p.active| ==> !Get(p.heap, p.active[k]).Empty()
  }

  /** Matching arms the pit: every collected cell holds a block. */
  lemma MatchingArms(p: PitView)
    requires Inv(p) && p.stage == Matching
    ensures Inv(StepMatching(p)) && Armed(StepMatching(p))
  {
    var r := StepMatching(p);
    forall k | 0 <= k < |r.active|
      ensures !Get(r.heap, r.active[k]).Empty()
    {
      var q := r.active[k];
      M.CollectedMatchesMembers(p.heap, p.active, q);
      var j :| 0 <= j < |p.active| && q in M.MatchesAt(p.heap, p.active[j]);
      M.MatchesAtCells(p.heap, p.active[j]);
    }
  }

  /** A blink keeps the pit armed: marking keeps every kind. */
  lemma BlinkKeepsArmed(p: PitView, delta: nat)
    requires Inv(p) && Armed(p) && p.stage == Collecting && p.times < BlinkTicks
    ensures Inv(StepBlink(p, delta)) && Armed(StepBlink(p, delta))
  {
    var r := StepBlink(p, delta);
    if p.timer.Update(delta).ready {
      forall k | 0 <= k < |r.active|
        ensures !Get(r.heap, r.active[k]).Empty()
      {
        var q := r.active[k];
        MarkCell(p.heap, p.active, (p.times + 1) % 2 != 0, q.x, q.y);
      }
    }
  }

  /** Every call of `update` keeps `Armed`. */
  lemma StepKeepsArmed(p: PitView, c: ColumnState, delta: nat)
    requires Inv(p) && Armed(p) && c.Valid()
    ensures Inv(Step(p, c, delta).0) && Armed(Step(p, c, delta).0)
  {
    StepKeepsInv(p, c, delta);
    match p.stage
    case Stable =>
    case Matching => MatchingArms(p);
    case Collecting =>
      if p.times < BlinkTicks {
        BlinkKeepsArmed(p, delta);
      }
    case Dropping =>
  }

  /** Clearing an armed pit empties at least one more cell. */
  lemma ClearStepEmpties(p: PitView)
    requires Inv(p) && Armed(p) && p.stage == Collecting && p.times == BlinkTicks
    ensures G.Count(p.heap, None) < G.Count(StepClear(p).heap, None)
  {
    assert !Get(p.heap, p.active[0]).Empty();
    ClearEmpties(p.heap, p.active);
  }

  /** A blink fills no cell. */
  lemma BlinkStepKeepsCount(p: PitView, delta: nat)
    requires Inv(p) && p.stage == Collecting && p.times < BlinkTicks
    ensures G.Count(StepBlink(p, delta).heap, None) == G.Count(p.heap, None)
  {
    if p.timer.Update(delta).ready && p.active != [] {
      MarkKinds(p.heap, p.active, (p.times + 1) % 2 != 0, None);
    }
  }

  /** A dropping tick fills no cell. */
  lemma DroppingStepKeepsCount(p: PitView, delta: nat)
    requires Inv(p) && p.stage == Dropping
    ensures G.Count(StepDropping(p, delta).heap, None) == G.Count(p.heap, None)
  {
    if p.timer.Update(delta).ready {
      G.DropPassKinds(p.heap, p.active, None);
    }
  }

  /**
   * The cascade ends: outside the stable stage no call of `update` fills a cell,
   * and each clearing of an armed pit empties at least one more, of the heap's
   * 78 cells. So between two landings at most 78 rounds of matching, clearing
   * and dropping run before the pit is stable again.
   */
  lemma CascadeEmpties(p: PitView, c: ColumnState, delta: nat)
    requires Inv(p) && Armed(p) && c.Valid() && p.stage != Stable
    ensures var r := Step(p, c, delta).0;
      && G.Count(p.heap, None) <= G.Count(r.heap, None) <= NumCols * NumRows
      && (p.stage == Collecting && p.times == BlinkTicks ==> G.Count(p.heap, None) < G.Count(r.heap, None))
  {
    StepKeepsInv(p, c, delta);
    G.CountBound(Step(p, c, delta).0.heap, None);
    match p.stage
    case Matching =>
    case Collecting =>
      if p.times == BlinkTicks {
        ClearStepEmpties(p);
      } else {
        BlinkStepKeepsCount(p, delta);
      }
    case Dropping => DroppingStepKeepsCount(p, delta);
  }

  /**
   * Time matters only where the source reads the timer. A landing leaves the
   * stage timer run out, since it is not reset. On a zero delta, matching and
   * the clear still leave their stages, and a blink on that run-out timer still
   * fires.
   */
  lemma ZeroDeltaCascade(p: PitView, c: ColumnState, delta: nat)
    requires Inv(p) && c.Valid()
    ensures p.stage == Stable && Step(p, c, delta).0.stage == Matching ==> Step(p, c, delta).0.timer.remaining == 0
    ensures p.stage == Matching ==> Step(p, c, 0).0.stage != Matching
    ensures p.stage == Collecting && p.times == BlinkTicks ==> Step(p, c, 0).0.stage != Collecting
    ensures p.stage == Collecting && p.times < BlinkTicks && p.timer.remaining == 0 ==>
      Step(p, c, 0).0.times == p.times + 1
  {
  }

  /** `topped_up` holds exactly when the pit is at rest with no active cell and a block sits in some top cell. */
  lemma ToppedUpMeans(p: PitView)
    requires Inv(p)
    ensures p.ToppedUp() <==> p.active == [] && exists x :: 0 <= x < NumCols && !Get(p.heap, Vec2(x, 0)).Empty()
  {
  }

  /** Without elapsed time the stable stage never advances, whatever the piece. */
  lemma ZeroDeltaStaysStable(c: ColumnState)
    requires c.Valid()
    ensures Step(Initial(), c, 0).0 == Initial()
    ensures Step(Initial(), c, 0).1 == c
  {
  }

  /** The pit's `test_update_stable_stage`: two zero-length updates leave a fresh pit stable. */
  lemma StableStageScenario(c: ColumnState)
    requires c.Valid()
    ensures var r1 := Step(Initial(), c, 0);
      Inv(r1.0) && r1.1.Valid() && Step(r1.0, r1.1, 0).0.IsStable()
  {
    ZeroDeltaStaysStable(c);
    ZeroDeltaStaysStable(Step(Initial(), c, 0).1);
  }

  /**
   * `test_update_matching_stage` with one full stage interval elapsed: a piece of
   * three blocks moved to the floor lands, and the pit leaves the stable stage
   * with the three written cells active.
   */
  lemma MatchingStageScenario(s: seq<Block>)
    requires |s| == 3
    ensures var c := MoveDownTimes(ColumnState.From(s), Initial().heap, NumRows - 1);
      var r := Step(Initial(), c, PitMoveMillis).0;
      && !r.IsStable() && r.stage == Matching
      && r.active == [Vec2(StartingX, NumRows - 1), Vec2(StartingX, NumRows - 2), Vec2(StartingX, NumRows - 3)]
  {
    LandingAtBottomScenario(s);
  }

  /** The fields of `PitState`, updated in place by `Pit::update`. */
  class PitState {
    var stage: PitStage
    const moveTimer: Timer
    var times: nat

    /** `PitState::new`. */
    constructor ()
      ensures stage == Stable && times == 0 && moveTimer.State() == TimerState.FromMillis(PitMoveMillis)
      ensures fresh(moveTimer)
    {
      stage := Stable;
      times := 0;
      moveTimer := new Timer.FromMillis(PitMoveMillis);
    }
  }

  /** Writes `Clear`: every listed cell of the heap loses its flag and its kind. */
  method ClearAt(heap: array2<Block>, os: seq<Vec2>)
    requires forall k :: 0 <= k < |os| ==> InArray(heap, os[k])
    modifies heap
    ensures Cells(heap) == Clear(old(Cells(heap)), os)
  {
    ghost var g := Cells(heap);
    assert AllInGrid(g, os);
    for i := 0 to |os|
      invariant Cells(heap) == Clear(g, os[..i])
    {
      assert os[..i + 1][..i] == os[..i];
      var o := os[i];
      var b := heap[o.x, o.y].(exploding := false);
      Store(heap, o, b.Update(None));
    }
    assert os[..|os|] == os;
  }

  /** Writes `Mark`: every listed cell of the heap gets the exploding flag `flag`. */
  method MarkAt(heap: array2<Block>, os: seq<Vec2>, flag: bool)
    requires forall k :: 0 <= k < |os| ==> InArray(heap, os[k])
    modifies heap
    ensures Cells(heap) == Mark(old(Cells(heap)), os, flag)
  {
    ghost var g := Cells(heap);
    assert AllInGrid(g, os);
    for i := 0 to |os|
      invariant Cells(heap) == Mark(g, os[..i], flag)
    {
      assert os[..i + 1][..i] == os[..i];
      var o := os[i];
      Store(heap, o, heap[o.x, o.y].(exploding := flag));
    }
    assert os[..|os|] == os;
  }

  /** The clearing half of the collecting stage on the heap array: clear the active cells, then collect what hangs above them. */
  method ClearAndCollect(heap: array2<Block>, os: seq<Vec2>) returns (a: seq<Vec2>)
    requires AllInGrid(Cells(heap), os)
    modifies heap
    ensures Cells(heap) == Clear(old(Cells(heap)), os)
    ensures a == G.Dropping(Cells(heap), os)
  {
    ClearAt(heap, os);
    a := G.CollectDroppingAt(heap, os);
  }

  /** The pit: the heap of landed blocks, the stage state and the active cells. */
  class Pit {
    const heap: array2<Block>
    const state: PitState
    var activeOrigins: seq<Vec2>

    ghost function View(): PitView
      reads this, heap, state, state.moveTimer
    {
      PitView(Cells(heap), state.stage, state.moveTimer.State(), state.times, activeOrigins)
    }

    ghost predicate Valid()
      reads this, heap, state, state.moveTimer
    {
      heap.Length0 == NumCols && heap.Length1 == NumRows && Inv(View())
    }

    /** `Pit::new`. */
    constructor ()
      ensures Valid() && View() == Initial()
      ensures fresh(heap) && fresh(state) && fresh(state.moveTimer)
    {
      heap := new Block[NumCols, NumRows]((x, y) => Block.New(None));
      state := new PitState();
      activeOrigins := [];
      new;
      HoldsIsCells(heap, EmptyHeap());
    }

    /** `stable`. */
    method Stable() returns (b: bool)
      requires Valid()
      ensures b == View().IsStable()
    {
      b := state.stage == PitStage.Stable;
    }

    /** `topped_up`: stable, and some column's top cell holds a block. */
    method ToppedUp() returns (b: bool)
      requires Valid()
      ensures b == View().ToppedUp()
    {
      b := Stable();
      if !b {
        return;
      }
      b := false;
      for x := 0 to heap.Length0
        invariant forall i :: 0 <= i < x ==> heap[i, 0].Empty()
      {
        if !heap[x, 0].Empty() {
          b := true;
          assert !Get(View().heap, Vec2(x, 0)).Empty();
          return;
        }
      }
    }

    /** The stable branch of `update`. */
    method UpdateStable(column: Column, delta: nat)
      requires Valid() && column.Valid() && state.stage == PitStage.Stable
      requires column.moveTimer != state.moveTimer
      modifies this, heap, state, state.moveTimer, column
      ensures Valid() && column.Valid()
      ensures (View(), column.View()) == StepStable(old(View()), old(column.View()), delta)
    {
      ghost var p := View();
      ghost var c := column.View();
      state.moveTimer.Update(delta);
      if state.moveTimer.ready {
        LandWrites(c, p.heap, delta);
        var origins := column.DetectLanding(heap, delta);
        if origins.Some? {
          activeOrigins := origins.value;
          state.stage := PitStage.Matching;
        } else {
          state.moveTimer.Reset();
        }
      }
      StableKeepsInv(p, c, delta);
    }

    /** The matching branch of `update`. */
    method UpdateMatching()
      requires Valid() && state.stage == PitStage.Matching
      modifies this, state
      ensures Valid() && View() == StepMatching(old(View()))
    {
      activeOrigins := M.CollectMatchingAt(heap, activeOrigins);
      state.stage := if activeOrigins == [] then PitStage.Stable else PitStage.Collecting;
    }

    /** The collecting branch of `update` after the third blink. */
    method UpdateClear()
      requires Valid() && state.stage == PitStage.Collecting && state.times == BlinkTicks
      modifies this, heap, state
      ensures Valid() && View() == StepClear(old(View()))
    {
      ghost var p := View();
      ghost var h := Clear(p.heap, p.active);
      ghost var d := G.Dropping(h, p.active);
      assert StepClear(p) == PitView(h, if d == [] then PitStage.Stable else PitStage.Dropping, p.timer, 0, d);
      ClearKeepsInv(p);
      var a := ClearAndCollect(heap, activeOrigins);
      assert Cells(heap) == h && a == d;
      assert state.moveTimer.State() == p.timer;
      activeOrigins := a;
      state.times := 0;
      state.stage := if a == [] then PitStage.Stable else PitStage.Dropping;
      assert View() == StepClear(p);
    }

    /** The collecting branch of `update` before the third blink. */
    method UpdateBlink(delta: nat)
      requires Valid() && state.stage == PitStage.Collecting && state.times < BlinkTicks
      modifies this, heap, state, state.moveTimer
      ensures Valid() && View() == StepBlink(old(View()), delta)
    {
      state.moveTimer.Update(delta);
      if state.moveTimer.ready {
        state.moveTimer.Reset();
        state.times := state.times + 1;
        if activeOrigins != [] {
          var exploding := state.times % 2 != 0;
          MarkAt(heap, activeOrigins, exploding);
        }
      }
    }

    /** The collecting branch of `update`. */
    method UpdateCollecting(delta: nat)
      requires Valid() && state.stage == PitStage.Collecting
      modifies this, heap, state, state.moveTimer
      ensures Valid() && View() == StepCollecting(old(View()), delta)
    {
      if state.times == BlinkTicks {
        UpdateClear();
      } else {
        UpdateBlink(delta);
      }
    }

    /** The dropping branch of `update`. */
    method UpdateDropping(delta: nat)
      requires Valid() && state.stage == PitStage.Dropping
      modifies this, heap, state, state.moveTimer
      ensures Valid() && View() == StepDropping(old(View()), delta)
    {
      state.moveTimer.Update(delta);
      if state.moveTimer.ready {
        state.moveTimer.Reset();
        var dropped, moved := G.UpdateDroppingAt(heap, activeOrigins);
        activeOrigins := moved;
        if !dropped {
          state.stage := PitStage.Matching;
        }
      }
    }

    /** `update`: one step of the cascade, as `Step` describes it. */
    method Update(column: Column, delta: nat)
      requires Valid() && column.Valid() && column.moveTimer != state.moveTimer
      modifies this, heap, state, state.moveTimer, column
      ensures Valid() && column.Valid()
      ensures (View(), column.View()) == Step(old(View()), old(column.View()), delta)
    {
      match state.stage
      case Stable => UpdateStable(column, delta);
      case Matching => UpdateMatching();
      case Collecting => UpdateCollecting(delta);
      case Dropping => UpdateDropping(delta);
    }
  }
}
