# rust_columns: the cascade engine, modelled in Dafny

This project models the game logic of *rust_columns*, a falling-blocks game in
the style of Columns. A piece is a vertical column of three coloured blocks. It
falls through a pit of 6 columns by 13 rows. It can be moved sideways and its
blocks can be rotated. Once it lands, its blocks join the heap of landed blocks.
Then the pit runs a cascade:

1. It finds every line of three or more equal blocks through the landed cells.
   The lines can run vertically, horizontally or along either diagonal.
2. The matched blocks blink three times and are cleared.
3. The blocks left hanging above the cleared cells fall one row per timer tick
   until they rest.
4. Matching starts again, until nothing matches and the pit is stable.

The modules follow the source files:

| module (file) | source | form |
|---|---|---|
| `Geometry` (geometry.dfy) | `src/lib.rs`: grid size, starting cell, `Vec2` | values |
| `Blocks` (blocks.dfy) | `src/block.rs`: `Block`, `BlockKind` | datatype with member functions |
| `Timing` (timing.dfy) | `src/timer.rs`: `Timer` | `TimerState` value plus a `Timer` class whose methods update its fields |
| `Heaps` (heaps.dfy) | `src/pit.rs`: the `Heap` type and `Pit::new_heap` | grids as `seq<seq<Block>>`; the pit's heap array is read into one with `Cells` |
| `Matching` (matching.dfy) | `src/pit.rs`: `CardinalAxis`, `matching_at`, `collect_matching_at` | specification functions, and methods with the source's loops over the heap array |
| `Gravity` (gravity.dfy) | `src/pit.rs`: `collect_dropping_at`, `update_dropping_at` | specification functions, and loop methods over the heap array |
| `Columns` (columns.dfy) | `src/column.rs`: `Column` | `ColumnState` value plus a `Column` class |
| `Pits` (pits.dfy) | `src/pit.rs`: `PitStage`, `PitState`, `Pit` | `PitView` value and `Step` transition, plus `PitState`/`Pit` classes |
| `Scenarios`, `DroppingScenarios` | the unit tests of `src/pit.rs` | concrete 3 × 3 heaps |

Each class has a ghost view that returns a value (`Timer.State`,
`Column.View` and `Pit.View`). Each method that changes state ensures that the
new view equals a specification function applied to the old view. The
properties themselves are proved as lemmas about those functions.

The central facts:
- `Pit.Update` is exactly `Step`.
- `Step` keeps the pit invariant `Inv`.
- The stages follow Stable → Matching → Collecting → Dropping → Matching, or go back to Stable.
- Matching collects exactly the cells on a qualifying line, each once.
- Clearing empties exactly the active cells.
- Dropping never creates or destroys a block.
- On every ready timer tick, dropping strictly lowers how far the active blocks can still fall. So each dropping phase ends after at most `Headroom` ready ticks, and each blink phase after three.
- The cascade ends. Outside the stable stage, no call of `update` fills a cell, and each clearing empties at least one more of the 78. So at most 78 rounds of matching, clearing and dropping run between two landings. Blinks after the first one, and dropping ticks, need ready ticks. Matching, the clear, and the first blink after a landing need none: they advance even on a zero delta (`Pits.ZeroDeltaCascade`).

## Model

| member | source | states |
|---|---|---|
| Blocks.Block.New | src/block.rs:18-23 | the block has the given kind and is not exploding |
| Blocks.Block.Default | src/block.rs:11-15 | the derived default block is empty and not exploding |
| Blocks.Block.Update | src/block.rs:35-37 | the kind becomes the given one, the exploding flag is kept; empty exactly when the new kind is none |
| Blocks.Block.Numbered | src/block.rs:25-33 | 6 exactly when exploding, -1 exactly when not exploding and empty, otherwise the ordinal of the kind |
| Blocks.EqIsEquivalence | src/block.rs:44-48 | block equality is reflexive, symmetric and transitive, and ignores the exploding flag |
| Blocks.NumberedSeparatesKinds | src/block.rs:25-33 | two non-exploding blocks get the same display code exactly when they are equal |
| Blocks.DefaultIsEmpty | src/block.rs:54-57 | the default block is empty |
| Timing.SaturatingSub | src/timer.rs:20 | the result never exceeds the minuend, is zero exactly when the subtrahend is at least the minuend, and is otherwise the exact difference |
| Timing.TimerState.FromMillis | src/timer.rs:11-17 | a new timer is not ready and has the whole interval remaining |
| Timing.TimerState.Update | src/timer.rs:19-22 | the remaining time drops by the delta, saturating at zero; ready exactly when nothing remains; the interval is kept |
| Timing.TimerState.Finish | src/timer.rs:24-27 | nothing remains and the timer is ready |
| Timing.TimerState.Reset | src/timer.rs:29-31 | the timer is a fresh timer of the same interval |
| Timing.ReadyStaysReady | src/timer.rs:19-22 | once nothing remains, every later update leaves the timer ready |
| Timing.UpdatesAdd | src/timer.rs:19-22 | two updates equal one update by the sum of the deltas |
| Timing.IntervalIsFixed | src/timer.rs:11-31 | no operation changes the interval; a reset timer is not ready and has the whole interval remaining |
| Timing.TimerScenario | src/timer.rs:38-50 | the unit test: not ready at first, not ready after 500 ms, ready after 501 more, not ready after a reset, ready after finish |
| Timing.Timer.FromMillis | src/timer.rs:11-17 | the object holds a fresh timer of the interval |
| Timing.Timer.Clone | src/column.rs:81 | the copy taken by `detect_landing` holds the same state as the original |
| Timing.Timer.Update | src/timer.rs:19-22 | the object's new state is the value update of its old state |
| Timing.Timer.Finish | src/timer.rs:24-27 | the object's new state is the finished old state |
| Timing.Timer.Reset | src/timer.rs:29-31 | the object's new state is the reset old state |
| Timing.TimerObjectScenario | src/timer.rs:38-50 | the unit test's steps on the object read the ready flags false, false, true, false, true |
| Heaps.NewHeap | src/pit.rs:289-293 | a grid of the given size whose every cell holds a new block of the given kind |
| Heaps.EmptyHeap | src/pit.rs:274-281 | the pit's initial heap: 6 × 13 cells, each a fresh block with no kind |
| Heaps.Set | src/pit.rs:116 | writing one cell changes that cell and no other, and keeps the shape |
| Matching.Next | src/pit.rs:29-53 | the iterator advances one axis at a time and ends exactly after the north-west/south-east axis |
| Matching.AxisOrder | src/pit.rs:29-53 | iterating from the default state visits the axes north-south, east-west, north-east/south-west and north-west/south-east, in that order |
| Matching.Limit | src/pit.rs:191-252 | the scan bound of each direction is at least 1 |
| Matching.LimitInside | src/pit.rs:191-252 | every step below a direction's bound stays inside the grid |
| Matching.LimitOutside | src/pit.rs:191-252 | the step at the bound leaves the grid, so no in-grid cell is skipped |
| Matching.DiagonalBounds | src/pit.rs:224-252 | the `min` bounds of the four diagonal scans mean exactly that both coordinates stay in range |
| Matching.RayCells | src/pit.rs:191-252 | the k-th collected cell of a scan is the cell k + 1 steps away, and holds a block equal to the origin's |
| Matching.RayStops | src/pit.rs:191-252 | a scan stops at the grid edge or at the first cell unequal to the origin |
| Matching.RayIs | src/pit.rs:191-252 | a list of consecutive equal cells, followed by an unequal cell or the edge, is the scan's result |
| Matching.RayFacts | src/pit.rs:191-252 | a scan's cells are distinct, on the ray, in the grid and equal to the origin |
| Matching.AxesDisjoint | src/pit.rs:187-253 | two different axes share no cell other than the origin |
| Matching.CandidatesDisjoint | src/pit.rs:187-253 | no cell is collected by two different axes, and the origin is collected by none |
| Matching.FoundFacts | src/pit.rs:181-258 | the cells of the four axes together are distinct and exclude the origin |
| Matching.CandidatesFacts | src/pit.rs:187-253 | an axis collects distinct in-grid cells on that axis with blocks equal to the origin's |
| Matching.AllAxes | src/pit.rs:181-258 | driving the iterator appends each qualifying axis's cells in the iterator's order |
| Matching.MatchesAtCells | src/pit.rs:169-265 | every matched cell is in the grid and holds a non-empty block equal to the origin's |
| Matching.MatchesAtMembers | src/pit.rs:169-265 | a cell is matched exactly when the origin is non-empty, some axis has at least two equal neighbours, and the cell is the origin or lies on such an axis |
| Matching.MatchesAtShape | src/pit.rs:255-264 | the matches are distinct; they are non-empty exactly when the origin is non-empty and some axis qualifies; then the origin is last and appears only once |
| Matching.AddNew | src/pit.rs:158-163 | the result holds exactly the cells of the accumulator and of the new list, and has no duplicates if the accumulator has none |
| Matching.UnionMembers | src/pit.rs:157-164 | a cell is in the union exactly when some list holds it |
| Matching.CollectedMatches | src/pit.rs:149-167 | the collected cells are distinct and inside the grid |
| Matching.CollectedMatchesMembers | src/pit.rs:149-167 | a cell is collected exactly when it matches at some origin |
| Matching.MatchesInArray | src/pit.rs:169-265 | every matched cell indexes the heap array |
| Matching.Scan | src/pit.rs:191-203 | the loop over one direction of the heap array returns that direction's scan |
| Matching.ScanAxis | src/pit.rs:187-253 | the two loops of an axis return that axis's candidates |
| Matching.ScanAxes | src/pit.rs:181-258 | the iterator loop returns the qualifying axes' cells in order |
| Matching.MatchingAt | src/pit.rs:169-265 | `matching_at` on the heap array returns `MatchesAt` of the heap's cells |
| Matching.PushUnseen | src/pit.rs:158-163 | the cache loop appends exactly the unseen cells, and the cache then marks exactly the collected cells |
| Matching.CollectMatchingAt | src/pit.rs:149-167 | `collect_matching_at` on the heap array returns `CollectedMatches` of the heap's cells |
| Gravity.Above | src/pit.rs:135-140 | the scan above a cell returns, nearest first, the cells directly above it in its column, at most as many as the rows above it |
| Gravity.AboveCells | src/pit.rs:135-140 | the collected cells hold blocks, and the scan ends at the top row or at an empty cell |
| Gravity.UnsupportedMembers | src/pit.rs:134-141 | a cell is collected exactly when it lies in the run above some origin |
| Gravity.UnsupportedCells | src/pit.rs:134-141 | every collected cell is in the grid and holds a block |
| Gravity.Insert | src/pit.rs:144 | inserting keeps the list ordered by descending row and adds exactly the one cell |
| Gravity.SortByRow | src/pit.rs:144 | the sort orders by descending row and is a permutation of its input |
| Gravity.Dropping | src/pit.rs:127-147 | the result is ordered lowest first and is a permutation of the cells above the origins |
| Gravity.DroppingMembers | src/pit.rs:127-147 | a cell is in the result exactly when it lies in the run above some origin; each such cell is in the grid and holds a block |
| Gravity.UnsupportedNoDuplicates | src/pit.rs:134-141 | for distinct origins the collected cells are distinct |
| Gravity.CountUpdate | src/pit.rs:113-116 | overwriting one cell changes each kind's count only by that cell |
| Gravity.DropOne | src/pit.rs:110-118 | one drop keeps the shape of the grid and leaves the origin in the grid |
| Gravity.DropOneEffect | src/pit.rs:110-118 | the block moves exactly when the cell below exists and is empty; it arrives intact; the cell it left keeps only its exploding flag; no other cell changes |
| Gravity.DropOneKinds | src/pit.rs:110-118 | a drop keeps the count of every kind |
| Gravity.DropPass | src/pit.rs:102-122 | a pass keeps the shape and the number of origins, and the origins stay in the grid |
| Gravity.DropPassKinds | src/pit.rs:102-122 | a pass keeps the count of every kind |
| Gravity.DropPassProgress | src/pit.rs:102-122 | a pass that drops something strictly lowers the origins' headroom; a pass that drops nothing changes neither grid nor origins |
| Gravity.Settle | src/pit.rs:716-721 | the test's loop of passes on the moved origins ends and keeps the shape and the number of origins; it counts no pass exactly when the first pass drops nothing |
| Gravity.SettleKinds | src/pit.rs:716-721 | settling keeps the count of every kind |
| Gravity.SettleIsStable | src/pit.rs:716-721 | a further pass over the settled grid and the origins where the blocks came to rest drops nothing, which is why the loop stops |
| Gravity.CollectDroppingAt | src/pit.rs:127-147 | `collect_dropping_at` on the heap array returns `Dropping` of the heap's cells |
| Gravity.DropAt | src/pit.rs:110-118 | one iteration of the drop loop on the array does what `DropOne` describes |
| Gravity.UpdateDroppingAt | src/pit.rs:102-122 | `update_dropping_at` on the array does what `DropPass` describes, for heap, origins and result |
| Columns.Span | src/column.rs:90-95 | between 1 and 3 shaft blocks are written: all three, or as many as there are rows down to the base |
| Columns.Placed | src/column.rs:90-98 | as many cells are written as `Span` gives |
| Columns.Stamp | src/column.rs:90-98 | writing the shaft keeps the heap's shape |
| Columns.StampPlaced | src/column.rs:90-98 | writing the shaft puts `shaft[2 - i]` at row `y - i` for each written cell, and changes nothing else |
| Columns.ColumnState.From | src/column.rs:47-52 | a new piece is valid |
| Columns.ColumnState.Default | src/column.rs:127-136 | the default piece is valid |
| Columns.FromStarts | src/column.rs:47-52 | a new piece starts at the starting cell, dropping, with the given shaft and a fresh 1000 ms timer; the default shaft is three empty blocks |
| Columns.HitsNeedDropping | src/column.rs:114-124 | a piece that no longer drops is blocked in no direction |
| Columns.MovesWhileDropping | src/column.rs:60-76 | while dropping, each move changes one coordinate by one exactly when the target cell is inside and empty, and otherwise changes nothing; the piece stays valid |
| Columns.MovesAfterLanding | src/column.rs:60-76 | a piece that no longer drops moves unchecked |
| Columns.CycleRotates | src/column.rs:54-58 | while dropping the shaft rotates right by one (a permutation), otherwise nothing changes; three cycles restore the piece |
| Columns.UpdateSteps | src/column.rs:105-112 | the timer counts down; exactly when it runs out it restarts and the piece takes one `move_down`, otherwise it stays |
| Columns.LandWrites | src/column.rs:78-103 | the piece lands exactly when it is blocked below and its timer copy is ready. Then it stops dropping, its timer is untouched, the in-grid shaft blocks are written and nothing else changes, and the written cells are returned base first |
| Columns.MoveDownTimes | src/column.rs:60-64 | repeated moves keep the piece valid |
| Columns.FallsThroughEmpty | src/column.rs:60-64 | through an empty column a dropping piece goes down one row per move |
| Columns.UpdateScenario | src/column.rs:211-219 | a 999 ms update leaves a new piece at row 0 and 1 ms more moves it to row 1 |
| Columns.LandingOnHeapScenario | src/column.rs:222-235 | a new piece does not land on an empty heap; with a block below it, it lands and writes only its base cell |
| Columns.LandingAtBottomScenario | src/column.rs:237-256 | after twelve moves down, the piece lands on the floor and writes the three bottom cells of its column |
| Columns.Column.From | src/column.rs:47-52 | the object holds the value `ColumnState.From` |
| Columns.Column.Default | src/column.rs:127-136 | the object holds the value `ColumnState.Default` |
| Columns.Column.Cycle | src/column.rs:54-58 | the object's new value is the cycled old value |
| Columns.Column.DetectHitDownwards | src/column.rs:114-116 | returns `HitDown` of the heap's cells |
| Columns.Column.DetectHitLeftwards | src/column.rs:118-120 | returns `HitLeft` of the heap's cells |
| Columns.Column.DetectHitRightwards | src/column.rs:122-124 | returns `HitRight` of the heap's cells |
| Columns.Column.MoveDown | src/column.rs:60-64 | the object's new value is `MoveDown` of the old value |
| Columns.Column.MoveLeft | src/column.rs:66-70 | the object's new value is `MoveLeft` of the old value |
| Columns.Column.MoveRight | src/column.rs:72-76 | the object's new value is `MoveRight` of the old value |
| Columns.Column.Update | src/column.rs:105-112 | the object's new value is `Update` of the old one, and the result is the dropping flag |
| Columns.Column.Transfer | src/column.rs:90-98 | the reversed-shaft loop writes `Stamp` into the heap array and returns `Placed` |
| Columns.Column.DetectLanding | src/column.rs:78-103 | piece, heap array and result are those of `Land` |
| Pits.Clear | src/pit.rs:327-330 | clearing keeps the heap's shape |
| Pits.ClearCell | src/pit.rs:327-330 | clearing turns exactly the listed cells into blocks with no kind and no flag |
| Pits.MarkCell | src/pit.rs:348-352 | marking sets the given flag on exactly the listed cells and keeps their kinds |
| Pits.Initial | src/pit.rs:274-281 | the new pit satisfies the invariant and is armed |
| Pits.StableKeepsInv | src/pit.rs:299-310 | the stable stage keeps the invariant, and the piece stays valid whether it lands or not |
| Pits.ClearKeepsInv | src/pit.rs:323-338 | after the third blink the invariant holds again: the newly active cells are inside the heap |
| Pits.StepKeepsInv | src/pit.rs:295-372 | every `update` keeps the invariant and the piece's validity |
| Pits.StageOrder | src/pit.rs:295-372 | Stable goes to Stable or Matching; Matching to Stable or Collecting; Collecting stays or goes to Dropping or Stable; Dropping stays or goes to Matching |
| Pits.StableStep | src/pit.rs:299-310 | only the stable stage touches the piece. Matching starts exactly when the stage timer and the piece's timer copy are ready and the piece is blocked below; the written cells then become active |
| Pits.MatchingStep | src/pit.rs:311-321 | matching keeps heap and timer; the new active cells are exactly the cells matching at some old active cell, once each |
| Pits.CollectingBlinks | src/pit.rs:339-355 | on a tick before the third, the counter goes up, the timer restarts, and each active cell shows `exploding` exactly when the count is odd; no other cell changes |
| Pits.CollectingWaits | src/pit.rs:339-343 | between ticks the collecting stage only counts its timer down |
| Pits.CollectingClears | src/pit.rs:323-338 | after the third tick, exactly the active cells are emptied with their flags off. The counter returns to 0, and the blocks hanging above become active; the stage is Stable exactly when there are none |
| Pits.DroppingProgress | src/pit.rs:357-370 | a dropping tick keeps every kind's count. When the timer is not ready, only the timer changes. When it is ready, the timer restarts and the tick either lowers the headroom and keeps dropping, or changes nothing and returns to matching |
| Pits.MarkKinds | src/pit.rs:347-353 | marking keeps the count of every kind |
| Pits.ClearEmpties | src/pit.rs:326-329 | clearing fills no cell, and empties at least one more when some listed cell holds a block |
| Pits.MatchingArms | src/pit.rs:311-321 | every cell matching collects holds a block, so the pit is armed when collecting starts |
| Pits.BlinkKeepsArmed | src/pit.rs:340-355 | a blink keeps the kinds of the active cells, so they still hold blocks |
| Pits.StepKeepsArmed | src/pit.rs:295-372 | every `update` keeps the pit armed: in the collecting stage each active cell holds a block |
| Pits.ClearStepEmpties | src/pit.rs:323-338 | clearing an armed pit strictly raises the number of empty cells |
| Pits.BlinkStepKeepsCount | src/pit.rs:340-355 | a blink leaves the number of empty cells unchanged |
| Pits.DroppingStepKeepsCount | src/pit.rs:357-370 | a dropping tick leaves the number of empty cells unchanged |
| Pits.CascadeEmpties | src/pit.rs:311-370 | outside the stable stage the number of empty cells never falls and never exceeds 78, and it rises strictly on each clearing |
| Pits.ZeroDeltaCascade | src/pit.rs:300-355 | a landing leaves the stage timer run out; on a zero delta, matching and the clear still leave their stages, and the first blink after a landing still fires |
| Pits.ToppedUpMeans | src/pit.rs:374-376 | `topped_up` holds exactly when no cell is active and some top cell holds a block |
| Pits.ZeroDeltaStaysStable | src/pit.rs:426-443 | a zero-length update leaves a new pit exactly as it was, and the piece too |
| Pits.StableStageScenario | src/pit.rs:405-424 | two zero-length updates leave a new pit stable |
| Pits.MatchingStageScenario | src/pit.rs:426-443 | after one full stage interval, a three-block piece on the floor lands and the pit enters the matching stage with the three written cells active |
| Pits.PitState.constructor | src/pit.rs:85-100 | a new state is stable, with no blink ticks and a fresh 1000 ms timer |
| Pits.ClearAt | src/pit.rs:327-330 | the clearing loop over the heap array writes `Clear` |
| Pits.MarkAt | src/pit.rs:348-352 | the marking loop over the heap array writes `Mark` |
| Pits.ClearAndCollect | src/pit.rs:325-337 | clears the active cells of the array, then returns the cells hanging above them |
| Pits.Pit.constructor | src/pit.rs:274-287 | a new pit holds the value `Initial` |
| Pits.Pit.Stable | src/pit.rs:378-380 | returns whether the stage is stable |
| Pits.Pit.ToppedUp | src/pit.rs:374-376 | the loop over the top row returns `ToppedUp` |
| Pits.Pit.UpdateStable | src/pit.rs:299-310 | pit and piece become what `StepStable` gives |
| Pits.Pit.UpdateMatching | src/pit.rs:311-321 | the pit becomes what `StepMatching` gives |
| Pits.Pit.UpdateClear | src/pit.rs:323-338 | the pit becomes what `StepClear` gives |
| Pits.Pit.UpdateBlink | src/pit.rs:339-355 | the pit becomes what `StepBlink` gives |
| Pits.Pit.UpdateCollecting | src/pit.rs:322-356 | the pit becomes what `StepCollecting` gives |
| Pits.Pit.UpdateDropping | src/pit.rs:357-370 | the pit becomes what `StepDropping` gives |
| Pits.Pit.Update | src/pit.rs:295-372 | pit and piece become what `Step` gives, and both stay valid |
| Scenarios.TwoBlueCollected | src/pit.rs:449-469 | two blue blocks in a column match nothing |
| Scenarios.ColumnCollected | src/pit.rs:471-499 | a blue column of three collects its three cells |
| Scenarios.RowCollected | src/pit.rs:501-529 | a blue row of three collects its three cells |
| Scenarios.DiagonalCollected | src/pit.rs:531-559 | a blue north-west/south-east diagonal of three collects its three cells |
| Scenarios.AntiDiagonalCollected | src/pit.rs:561-591 | a blue north-east/south-west diagonal of three collects its three cells |
| Scenarios.AllMagentaAlone | src/pit.rs:593-652 | on an all-magenta heap each test origin on its own collects exactly seven cells, itself and its six line neighbours. For (0, 0) these are the six the test lists. The test's list for (2, 2) names (2, 2) itself instead of (2, 1); its length check passes only because both lists have six entries |
| Scenarios.AllMagentaCollected | src/pit.rs:653-657 | on an all-magenta heap the two test origins together collect all nine cells |
| DroppingScenarios.StartIsBuilt | src/pit.rs:664-684 | the 3 × 3 heap is the one the test builds |
| DroppingScenarios.StartDropping | src/pit.rs:686-701 | `collect_dropping_at` at the five exploded cells returns the two magenta cells |
| DroppingScenarios.DroppingSettles | src/pit.rs:703-742 | repeating `update_dropping_at` drops twice, leaves the magenta blocks at (1, 1) and (2, 2), and leaves the layout the test checks |

## Left out

- Rendering is not modelled: the `Drawable` implementations (src/pit.rs:383-391, src/column.rs:139-153), src/renderer.rs, src/terminal.rs, src/frame.rs and the game loop in src/main.rs. They only read the state.
- `Column::new` (src/column.rs:26-45) draws three random kinds. Randomness is not modelled; every lemma about pieces holds for any three-block shaft (`ColumnState.From`). Its test (src/column.rs:168-196) compares random pieces and is not restated.
- `Duration` is a `nat` number of milliseconds and `u64` is unbounded. Timers only subtract, saturating at zero, so no wrap-around arises.
- `usize` coordinates are `nat`. `move_left` at column 0 on a piece that no longer drops would underflow and panic. `Columns.ColumnState.MoveLeft` and `Columns.Column.MoveLeft` therefore require `dropping || x > 0`. Every other `usize` subtraction in the core is guarded by the source.
- `times` is a `u8` in the source. It never exceeds 3 (`Pits.Inv`), so its width is not modelled.
- `sort_unstable_by` (src/pit.rs:144) leaves the order of cells in the same row unspecified. `Gravity.SortByRow` fixes one order, an insertion sort. `Gravity.Dropping` states only what the source guarantees: descending rows and a permutation of the collected cells.
- src/pit.rs:303 calls `column.landing(&mut self.heap)`. src/column.rs has no such method; it has `detect_landing(heap, delta)` (src/column.rs:78-103). The model calls `detect_landing` with the delta of the same `update` call.
- The `PitState` helpers (`update_dropping_at`, `collect_dropping_at`, `collect_matching_at`, `matching_at`) never read `self`. They are modelled as module-level methods over the heap array.
- The helpers are generic over the heap size in the source. The methods here work on any heap array, and the lemmas on any rectangular grid; the pit's own heap is 6 × 13.
- The source indexes the heap with active origins of its own making. The methods require those origins to lie inside the heap array, which `Pits.Inv` establishes for the pit.
- `Pits.Pit.Update` requires the piece's timer object to be distinct from the pit's. In the source they are separate values.
- The 3 × 3 test scenarios state each collected list exactly, including its order. The tests themselves check only lengths and membership, which follow from these lists.

## Findings

| source | as written | input that shows it | evidently intended | confidence | as-written member | corrected member |
|---|---|---|---|---|---|---|
| src/pit.rs:426-443 | `test_update_matching_stage` calls `update` once with a zero delta and asserts that the pit is no longer stable | a new pit and a three-block piece moved to the floor, updated with a delta of 0 ms: the pit's stage timer still has 1000 ms left, so the stable stage never consults the piece and the pit stays stable | an update after one full stage interval (1000 ms): the piece lands and the pit enters the matching stage | not executed | Pits.ZeroDeltaStaysStable | Pits.MatchingStageScenario |
