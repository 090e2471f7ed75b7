# Galton board: a verified model of the simulation core

This project models the logic behind a browser Galton board (`app.js`). Balls
are dropped from a funnel and fall through a trapezoid of pins. They collect in
a row of bins, and each bin counts the balls settled in it. Three pieces of
that program are modelled:

- **The board layout** (`createBoard`). Pins go in rows whose width is a floored
  linear interpolation between `trapezoidTopWidth * binCount` and `binCount`.
  Each row is centred on the board. Bin `i` is centred at
  `i * pinSpacing - boardWidth / 2 + pinSpacing / 2` and starts with a count of 0.
- **The physics step** (`physicsWorld.update`). For every falling ball it does:
  - gravity, damping and position integration;
  - the pin loop;
  - settling into the bin `floor((x + boardWidth / 2) / pinSpacing)` when the
    ball is below the collection line;
  - a second safety-net clamp at the bin floor;
  - the side walls and the top, which clamp with a restitution flip.

  The frame gate of `animate` runs the step only when `0 < delta < 0.2`.
- **Population control** (`addBall`, `resetBoard`). At a cap, `addBall` evicts
  at most one ball, in this order of preference:
  1. the first falling ball;
  2. the lowest ball of an edge bin;
  3. the lowest ball of the first bin, in a furthest-from-the-middle-first
     search order, that holds one. That bin is then re-stacked.

  The bin counter is then decremented under a guard, and a new falling ball is
  appended. `resetBoard` removes every ball and zeroes every counter.

Numbers are Dafny `real`s, that is, exact rationals. `Math.floor` is `.Floor`.

Modules, by file:

- `config.dfy`, `BoardConfig`: the configuration record, `getBallSize`, and the
  board dimensions derived from the configuration.
- `layout.dfy`, `Layout`: the pin and bin formulas of `createBoard` and their
  properties, including the bin-index round trip.
- `occupancy.dfy`, `Occupancy`: the simulation invariant `Consistent`:
  - every settled ball is at rest on a bin centre;
  - every bin counter equals the number of settled balls on that bin.

  It also proves conservation: the counters add up to the number of settled balls.
- `physics.dfy`, `Physics`: the per-ball step as a function (`StepBall`), the
  whole step as a fold over the balls (`StepBalls`), and their properties.
- `population.dfy`, `Population`:
  - the eviction choice of `addBall` as a function (`ChooseEviction`);
  - the search order, the oldest-ball scan and the re-stacking;
  - the loop methods that compute each of these;
  - the properties of each.
- `board.dfy`, `Simulation`: the class `Board`, holding the mutable state (pins,
  bins, balls, `ballsAdded`, `lastTime`). It has one method per operation, each
  proved against the functions above:
  - the constructor, which runs `createBoard`'s loops;
  - `Update`, `Animate`, `AddBall` and `ResetBoard`.

  Every operation (the constructor, `Update`, `Animate`, `AddBall` and
  `ResetBoard`) keeps `Valid()`, which holds `Consistent` and the pin layout. The
  helper methods they call are specified by the functions they compute.

## Model

| member | source | states |
|---|---|---|
| BoardConfig.BallSize | app.js:30-33 | the ball radius is positive and less than a quarter of the pin spacing (it is 24% of it) |
| BoardConfig.DefaultIsValid | app.js:2-27 | the initial configuration satisfies the validity conditions the model assumes |
| BoardConfig.CollectionLineAboveFloor | app.js:107-111 | the bin floor plus half a ball lies strictly between the bin floor and the collection line, and the collection line is below zero |
| Layout.LastRowFull | app.js:510-515 | the last pin row holds exactly `binCount` pins |
| Layout.WidthBetween | app.js:512-515 | the interpolated row width lies between the top width and `binCount` |
| Layout.RowWithinBins | app.js:512-518 | every row holds between 0 and `binCount` pins, so the row offset is never negative |
| Layout.RowsWiden | app.js:510-515 | a lower row never holds fewer pins than a row above it |
| Layout.RowCentred | app.js:518-525 | the pins of a row sit symmetrically about x = 0 |
| Layout.RowInsideBoard | app.js:518-525 | every pin x lies within half a spacing of the board's side edges |
| Layout.PinsInsideBoard | app.js:506-529 | every pin the row loops produce lies inside the board horizontally |
| Layout.BinLayout | app.js:588-634 | the bin layout has `binCount` bins, each with a count of 0 |
| Layout.BinIndexIff | app.js:116 | the settle formula returns i exactly when x lies in bin i's half-open interval of width `pinSpacing` |
| Layout.BinRoundTrip | app.js:116 | applying the settle formula to bin i's centre gives back i |
| Layout.BinCentersApart | app.js:620-622 | two different bin centres are at least one pin spacing apart |
| Layout.BinCenterInsideWalls | app.js:620-622 | every bin centre lies between the wall limits that `update` clamps to |
| Occupancy.EmptyBoardConsistent | app.js:627-631 | a freshly laid-out board with no balls satisfies the counter invariant |
| Occupancy.Conservation | app.js:119-135 | under the invariant, the counters sum to the number of settled balls |
| Physics.Integrate | app.js:57-64 | with damping in [0, 1] the sideways speed never grows and keeps its sign; over a positive delta the ball moves in the direction of its new velocity on each axis; with positive gravity, delta and damping, a ball that was not rising ends with a downward velocity and lower; the settled flag is kept |
| Physics.PinPass | app.js:67-100 | the pin loop changes only position and velocity, never the settled flag |
| Physics.Settle | app.js:113-137 | the settling block keeps the number of bins and their positions; only counters can change |
| Physics.FloorClamp | app.js:139-157 | the floor safety net keeps the number of bins and their positions |
| Physics.ClampWalls | app.js:159-168 | after the wall check, x is between the two wall limits; a ball already inside is unchanged; only x and the x velocity can change |
| Physics.ClampTop | app.js:170-174 | after the top check, y is at most topY; a ball already below it is unchanged; only y and the y velocity can change |
| Physics.StepBall | app.js:55-175 | the step of a settled ball changes neither the ball nor any counter; no step moves a bin or changes the number of bins |
| Physics.StepBalls | app.js:55-176 | the fold over the balls yields one ball per input ball and moves no bin |
| Physics.FloorClampInert | app.js:139-157 | the second floor clamp never changes what the settling block produced |
| Physics.SettlesIff | app.js:113-136 | a falling ball ends settled exactly when it crosses the collection line over an existing bin; then its velocity is zero, its x is that bin's centre, and exactly that bin's count rises by one; otherwise no counter changes |
| Physics.StepStaysOnBoard | app.js:159-174 | after its step, a ball that was falling is inside the walls, ball radius included, and not above topY |
| Physics.StepBallConsistent | app.js:113-157 | one ball's step keeps the counter invariant |
| Physics.StepBallsAt | app.js:55-56 | ball i of the whole step is ball i's own step, taken on the counters left by the balls before it |
| Physics.StepBallsConsistent | app.js:55-178 | the whole step keeps the counter invariant |
| Physics.StepEffect | app.js:55-176 | after the whole step, settled balls are unchanged, and every ball that was falling is inside the walls and not above topY |
| Population.Remove | app.js:694 | splicing out index i keeps the balls before i and shifts the ones after it down by one |
| Population.FirstUnsettledFrom | app.js:691-698 | the scan result, when present, is an in-range index of a falling ball |
| Population.FirstUnsettledFromIs | app.js:691-698 | the scan from i finds the first falling ball at or after i, and finds none only when every ball from i on has settled |
| Population.FirstUnsettledIs | app.js:691-698 | the first-tier scan finds the first falling ball in list order, and finds none only when all balls have settled |
| Population.AllSettledFrom | app.js:691-698 | when every ball from i on has settled, the scan from i finds nothing |
| Population.FindFirstUnsettled | app.js:691-698 | the loop returns the first falling ball, as the scan function specifies |
| Population.CountSettled | app.js:685 | the loop counts exactly the settled balls |
| Population.AllSettledCount | app.js:685 | when every ball has settled, the settled count is the number of balls |
| Population.OldestFrom | app.js:707-716 | the reduce result, when present, is an in-range ball matched to the bin |
| Population.OldestFromIs | app.js:707-716 | the reduce continued from any prefix holding its lowest ball still yields the lowest ball overall |
| Population.OldestIsLowest | app.js:707-716 | the chosen ball is matched to the bin and no matched ball is lower; among equally low ones it is the first in list order; none is chosen only when no ball matches |
| Population.FindOldest | app.js:707-716 | the filter-and-reduce loop returns the ball the reduce specifies |
| Population.Pair | app.js:746-750 | the indices pushed for one distance are valid bin indices |
| Population.Above | app.js:745-751 | the order built for the distances above d holds only valid bin indices |
| Population.SearchOrder | app.js:741-751 | the search order holds only valid bin indices |
| Population.DistBound | app.js:741-745 | no bin is further from the middle bin than the loop's starting distance |
| Population.PairFacts | app.js:746-750 | one distance pushes exactly the bins at that distance from the middle, each once |
| Population.AboveFacts | app.js:745-751 | the bands above d hold exactly the bins further than d, each once, furthest first |
| Population.SearchOrderIsPermutation | app.js:741-751 | the search order holds every bin index in [0, binCount) exactly once, in non-increasing distance from `floor(binCount / 2)` |
| Population.BuildSearchOrder | app.js:741-751 | the two-push loop builds exactly the search order |
| Population.Restack | app.js:777-788 | re-stacking keeps the number of balls |
| Population.RankIsPosition | app.js:782 | a matched ball's rank in the sorted stack is below the stack size, and a ball that sorts before another has a smaller rank |
| Population.RestackKeepsOrder | app.js:782-788 | after re-stacking, one ball of the bin is below another exactly when it sorted before it (lower y, ties by list order) |
| Population.RestackPacks | app.js:784-788 | re-stacked balls lie between the re-stack base and the level of the highest rank |
| Population.RestackBin | app.js:777-788 | the filter, sort and rewrite loop computes the re-stacked ball list |
| Population.SearchChoice | app.js:754-794 | a third-tier choice, when present, is an in-range ball matched to an in-range bin |
| Population.SearchChoiceIs | app.js:754-794 | the search from position j picks the first bin in the order that holds a matched ball, no bin before it in the order holds one, and the chosen ball is that bin's lowest, the first in list order among ties; it finds none only when no listed bin from j on holds a matched ball |
| Population.FindEdgeChoice | app.js:704-733 | the edge-bin loop picks the oldest ball of the left edge bin, else of the right one |
| Population.FindSearchChoice | app.js:754-794 | the search loop picks the oldest ball of the first bin in the order that holds one |
| Population.ChooseEviction | app.js:688-797 | a ball chosen in the first tier is falling; a ball chosen in a later tier is settled and matched to the bin named with it |
| Population.Decrement | app.js:724-727 | the guarded decrement keeps the number of bins |
| Population.Evict | app.js:688-797 | carrying out an eviction keeps the number of bins |
| Population.NewBall | app.js:807-829 | the new ball starts at the funnel height with x in [-0.1, 0.1), at rest and falling |
| Population.AddBallShape | app.js:688-832 | addBall removes at most one ball and always appends the new one last; below both caps it changes nothing else; the balls before the new one are exactly the old balls (no eviction), the old balls with the chosen one spliced out (first and second tier), or those same balls with only the heights of the evicted bin's balls changed (third tier); the bins are unchanged or have the guarded decrement applied |
| Population.EvictsFirstFalling | app.js:688-698 | at a cap, the first falling ball in list order is removed and no counter changes |
| Population.EdgeBinsFirst | app.js:700-733 | with no falling ball and the settled cap reached, the oldest ball of the left edge bin goes, failing that that of the right edge bin, with no re-stack |
| Population.InBinIffAtCenter | app.js:707-710 | under the invariant, the 0.1 tolerance match to bin k is the same as sitting on bin k's centre |
| Population.SearchFinds | app.js:753-794 | the search finds a ball when some listed bin holds a settled one |
| Population.SettledEvictionFound | app.js:736-795 | when every ball has settled and the settled cap is reached, some settled ball is evicted |
| Population.EvictedBinCounted | app.js:724-727 | the bin a settled ball is evicted from counts it, so the guard never blocks the decrement |
| Population.CountAtRemove | app.js:694 | removing one ball lowers the count at its bin by one if it was settled there, and by zero otherwise |
| Population.CountAtSameShape | app.js:784-788 | changing only y coordinates leaves every per-bin count unchanged |
| Population.RemoveConsistent | app.js:718-727 | removing a ball and decrementing its bin, if it was settled, keeps the counter invariant |
| Population.RestackConsistent | app.js:777-788 | re-stacking keeps the counter invariant |
| Population.AddBallConsistent | app.js:683-841 | addBall keeps the counter invariant, whichever tier evicts |
| Population.PopulationBound | app.js:688-832 | with `1 <= maxBalls` and `maxSettledBalls <= maxBalls`, addBall never takes the number of balls above `maxBalls` |
| Simulation.ResetBins | app.js:851-853 | resetting the counters keeps the number of bins |
| Simulation.ResetRestoresLayout | app.js:843-861 | resetting a laid-out board gives the board as built, with every counter zero; resetting twice equals resetting once |
| Simulation.Board.constructor | app.js:506-634 | a new board has the pin and bin layouts, no balls, `ballsAdded` = 0, and satisfies the invariant |
| Simulation.Board.CreateBoard | app.js:506-634 | the nested pin loops and the bin loop build exactly the pin and bin layouts |
| Simulation.Board.StepFalling | app.js:56-175 | the in-place body of update for one falling ball computes `StepBall` and changes only the bin counters |
| Simulation.Board.Land | app.js:113-137 | the in-place settling block computes `Settle` |
| Simulation.Board.CatchOnFloor | app.js:139-157 | the in-place floor safety net computes `FloorClamp` |
| Simulation.Board.Update | app.js:53-178 | the forEach loop computes the whole step `StepBalls`, keeps the invariant, and keeps conservation |
| Simulation.Board.Animate | app.js:914-923 | `lastTime` becomes the frame time; the step runs exactly when `0 < delta < 0.2` and the state is otherwise unchanged |
| Simulation.Board.PickEviction | app.js:685-797 | the scans and loops of addBall pick exactly the eviction `ChooseEviction` names, changing nothing |
| Simulation.Board.CarryOut | app.js:688-797 | the splice, the guarded decrement and the re-stack compute `Evict` in place |
| Simulation.Board.AddBall | app.js:683-841 | addBall updates balls and bins as `AddBallResult`, adds one to `ballsAdded`, and keeps the invariant and conservation |
| Simulation.Board.ResetBoard | app.js:843-861 | after the reset there are no balls, every counter is zero, positions are kept, the bins are the fresh layout, and `ballsAdded` = 0 |

## Left out

- Rendering is left out, because it does not affect the simulated state. That covers the Three.js scene, camera, lights, meshes and materials, `renderer.render`, ball colours and hue, and the stand and walls.
- DOM and input are left out, because they are user interface: the control panel, sliders, button text (app.js:864), resize and keyboard handlers.
- The configuration is fixed for the board's life (`const cfg`), and the board is built once, by the constructor. In the program, the sliders write `config.rows`, `config.binCount` and `config.pinSpacing` as soon as they move (app.js:362-376). The board is rebuilt only when the apply button is pressed (app.js:394-400, 451-473). In between, `update` and `addBall` read the new values against the old pins and bins. After a rows increase, `state.bins[binIndex]` can be undefined at app.js:118-119. The model cannot represent that state, because `BinsLaidOut` ties the bins to the configuration. `rebuildBoard` is not modelled.
- `startSimulation`, `stopSimulation`, `isAddingBalls`, `totalBallsToAdd` and the interval timer are left out as timer plumbing. This includes the stop call at the end of `addBall` (app.js:838-840) and in `resetBoard` (app.js:856-858). `requestAnimationFrame` is not modelled. The frame time is a parameter of `Animate`.
- The pin-collision geometry is not modelled, because it needs square roots, normalisation and `Math.random` (app.js:75-98). `Update`, `Animate` and `StepBall` take it as a parameter, `deflect(ballIndex, pinIndex, ball)`, whose position and velocity replace the ball's. The overlap test `distance < minDist` is modelled exactly, as the equivalent squared comparison.
- The z coordinate is dropped, because gravity has no z component and pins, bins and new balls all sit at z = 0, so z stays 0.
- `Math.random` for the start x is the parameter `random` of `AddBall`, in [0, 1).
- IEEE-754 rounding, infinities and NaN are not modelled. All arithmetic is exact.
- Balls are values in a sequence, not objects. Object identity and `indexOf` are therefore not modelled. The index the scan finds is the index `indexOf` would return, so the `index !== -1` guard always passes and is not modelled.
- `Array.prototype.sort` is modelled by its result: each ball of the bin gets its rank in (y, list order). This matches a stable sort, which the language guarantees.
- BoardConfig.Valid: configurations are required to have:
  - at least two rows, because one row divides by zero at app.js:510;
  - a pin spacing above 0.2, so the 0.1 matching tolerance identifies one bin;
  - at least one bin;
  - `0 <= trapezoidTopWidth <= 1`.

  The sliders keep to these ranges.
- Population.SearchOrder: requires `binCount >= 1`. With no bins, the source would push the index 0 of a bin that does not exist.
- Population.EdgeBinsFirst: states "no falling ball" as `FirstUnsettled(balls) == None`. `FirstUnsettledIs` shows this is the same as every ball being settled.
- Population.PopulationBound: is stated for `1 <= maxBalls` and `maxSettledBalls <= maxBalls`. The bound can fail when the settled cap is above the ball cap. Then, with every ball settled and the settled count below its cap, nothing is evicted. The settled cap itself is not an invariant of the program, because `update` settles balls without regard to it, and it is not claimed as one.
