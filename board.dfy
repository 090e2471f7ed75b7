/** The simulation state and the operations the app performs on it: building the
    board, the physics step, the frame gate, adding a ball and resetting. */
module Simulation {
  import opened BoardConfig
  import opened Layout
  import opened Occupancy
  import opened Physics
  import opened Population

  /** Every bin with its counter set back to zero. */
  function ResetBins(bins: seq<Bin>): (r: seq<Bin>)
    ensures |r| == |bins|
  {
    seq(|bins|, k requires 0 <= k < |bins| => bins[k].(ballCount := 0))
  }

  /** Resetting the counters of a laid-out board gives back the board as built:
      positions kept and every counter zero; doing it twice changes nothing more. */
  lemma ResetRestoresLayout(c: Config, bins: seq<Bin>)
    requires BinsLaidOut(c, bins)
    ensures ResetBins(bins) == BinLayout(c)
    ensures ResetBins(ResetBins(bins)) == ResetBins(bins)
    ensures TotalCount(ResetBins(bins)) == 0
  {
    ZeroTotal(ResetBins(bins));
  }

  lemma {:induction false} ZeroTotal(bins: seq<Bin>)
    requires forall k | 0 <= k < |bins| :: bins[k].ballCount == 0
    ensures TotalCount(bins) == 0
  {
    if bins != [] {
      ZeroTotal(bins[..|bins| - 1]);
    }
  }

  /** The board: its configuration, its pins and bins, the balls on it, the number
      of balls added, and the time of the last animation frame. */
  class Board {
    const cfg: Config
    var pins: seq<Vec>
    var bins: seq<Bin>
    var balls: seq<Ball>
    var ballsAdded: nat
    var lastTime: real

    /** Pins as laid out, and the invariant between balls and bin counters. */
    ghost predicate Valid()
      reads this
    {
      Consistent(cfg, bins, balls) && pins == PinLayout(cfg)
    }

    /** A board built from a valid configuration, with no balls on it. */
    constructor (c: Config)
      requires BoardConfig.Valid(c)
      ensures cfg == c && pins == PinLayout(c) && bins == BinLayout(c)
      ensures balls == [] && ballsAdded == 0 && lastTime == 0.0
      ensures Valid()
    {
      cfg := c;
      pins := [];
      bins := [];
      balls := [];
      ballsAdded := 0;
      lastTime := 0.0;
      new;
      CreateBoard();
      EmptyBoardConsistent(c);
    }

    /** The layout loops of createBoard, run on a board whose pins and bins have been cleared. */
    method CreateBoard()
      requires BoardConfig.Valid(cfg) && pins == [] && bins == []
      modifies this
      ensures pins == PinLayout(cfg) && bins == BinLayout(cfg)
      ensures balls == old(balls) && ballsAdded == old(ballsAdded) && lastTime == old(lastTime)
    {
      var row := 0;
      while row < cfg.rows
        invariant 0 <= row <= cfg.rows
        invariant pins == PinsBefore(cfg, row)
        invariant bins == [] && balls == old(balls) && ballsAdded == old(ballsAdded) && lastTime == old(lastTime)
      {
        var pinCount := PinCount(cfg, row);
        RowWithinBins(cfg, row);
        ghost var rowPins := RowPins(cfg, row);
        var i := 0;
        while i < pinCount
          invariant 0 <= i <= pinCount
          invariant pins == PinsBefore(cfg, row) + rowPins[..i]
          invariant bins == [] && balls == old(balls) && ballsAdded == old(ballsAdded) && lastTime == old(lastTime)
        {
          var pin := Vec(PinX(cfg, row, i), PinY(cfg, row));
          assert rowPins[..i + 1] == rowPins[..i] + [pin];
          pins := pins + [pin];
          i := i + 1;
        }
        assert rowPins[..i] == rowPins;
        row := row + 1;
      }
      ghost var layout := BinLayout(cfg);
      var k := 0;
      while k < cfg.binCount
        invariant 0 <= k <= cfg.binCount
        invariant bins == layout[..k]
        invariant pins == PinLayout(cfg) && balls == old(balls) && ballsAdded == old(ballsAdded) && lastTime == old(lastTime)
      {
        var bin := Bin(Vec(BinCenter(cfg, k), BinFloorY(cfg)), 0);
        assert layout[..k + 1] == layout[..k] + [bin];
        bins := bins + [bin];
        k := k + 1;
      }
      assert layout[..k] == layout;
    }

    /** The body of update's loop for one falling ball: integration, the pin loop,
        settling, the floor safety net, the walls and the top. Only the counters of
        the bins change here; the ball's new state is returned. */
    method StepFalling(ballIndex: nat, ball: Ball, delta: real, deflect: Deflection) returns (r: Ball)
      requires BoardConfig.Valid(cfg) && |bins| == cfg.binCount && !ball.settled
      modifies this
      ensures (r, bins) == StepBall(cfg, pins, old(bins), ballIndex, deflect, delta, ball)
      ensures pins == old(pins) && balls == old(balls) && ballsAdded == old(ballsAdded) && lastTime == old(lastTime)
    {
      r := Integrate(cfg, delta, ball);
      var j := 0;
      while j < |pins|
        invariant 0 <= j <= |pins|
        invariant PinPass(cfg, pins, ballIndex, deflect, r, j) == Moved(cfg, pins, ballIndex, deflect, delta, ball)
      {
        if Overlaps(cfg, r.pos, pins[j]) {
          var d := deflect(ballIndex, j, r);
          r := r.(pos := d.pos, vel := d.vel);
        }
        j := j + 1;
      }
      ghost var moved := r;
      r := Land(r);
      ghost var landed := r;
      r := CatchOnFloor(r);
      assert (r, bins) == FloorClamp(cfg, Settle(cfg, old(bins), moved).1, landed);
      ghost var floored := r;
      if r.pos.x < LeftLimit(cfg) {
        r := r.(pos := r.pos.(x := LeftLimit(cfg)), vel := r.vel.(x := r.vel.x * -cfg.restitution));
      } else if r.pos.x > RightLimit(cfg) {
        r := r.(pos := r.pos.(x := RightLimit(cfg)), vel := r.vel.(x := r.vel.x * -cfg.restitution));
      }
      assert r == ClampWalls(cfg, floored);
      ghost var walled := r;
      if r.pos.y > TopY(cfg) {
        r := r.(pos := r.pos.(y := TopY(cfg)), vel := r.vel.(y := r.vel.y * -cfg.restitution));
      }
      assert r == ClampTop(cfg, walled);
    }

    /** The settling block of update: below the collection line and over an existing
        bin, the ball is put on the bin's stack, stopped, marked settled and counted. */
    method Land(b: Ball) returns (r: Ball)
      requires BoardConfig.Valid(cfg) && |bins| == cfg.binCount
      modifies this
      ensures (r, bins) == Settle(cfg, old(bins), b)
      ensures pins == old(pins) && balls == old(balls) && ballsAdded == old(ballsAdded) && lastTime == old(lastTime)
    {
      r := b;
      if r.pos.y < BottomY(cfg) {
        var binIndex := BinIndexOf(cfg, r.pos.x);
        if 0 <= binIndex < cfg.binCount {
          var ballsInBin := bins[binIndex].ballCount;
          var y := Max(BinFloorY(cfg) + BallSize(cfg) * 0.5, BottomY(cfg) + ballsInBin as real * BallSize(cfg) * cfg.ballStackOffset);
          r := Ball(Vec(bins[binIndex].pos.x, y), Zero, true);
          bins := bins[binIndex := bins[binIndex].(ballCount := ballsInBin + 1)];
          assert r == Settle(cfg, old(bins), b).0;
          assert bins == Settle(cfg, old(bins), b).1;
        }
      }
    }

    /** The safety net of update: below the bin floor and over an existing bin, the
        ball is put on the floor, stopped, marked settled and counted. */
    method CatchOnFloor(b: Ball) returns (r: Ball)
      requires BoardConfig.Valid(cfg) && |bins| == cfg.binCount
      modifies this
      ensures (r, bins) == FloorClamp(cfg, old(bins), b)
      ensures pins == old(pins) && balls == old(balls) && ballsAdded == old(ballsAdded) && lastTime == old(lastTime)
    {
      r := b;
      if r.pos.y < BinFloorY(cfg) {
        var binIndex := BinIndexOf(cfg, r.pos.x);
        if 0 <= binIndex < cfg.binCount {
          var ballsInBin := bins[binIndex].ballCount;
          r := Ball(Vec(bins[binIndex].pos.x, BinFloorY(cfg) + BallSize(cfg) * 0.5), Zero, true);
          bins := bins[binIndex := bins[binIndex].(ballCount := ballsInBin + 1)];
        }
      }
    }

    /** One physics step of length delta: every falling ball, in list order, goes
        through StepFalling against the counters as the balls before it left them.
        The result is StepBalls, so the invariant is kept, and with it the counters
        still add up to the settled balls. */
    method Update(delta: real, deflect: Deflection)
      requires Valid()
      modifies this
      ensures (balls, bins) == StepBalls(cfg, pins, old(bins), old(balls), delta, deflect, |old(balls)|)
      ensures pins == old(pins) && ballsAdded == old(ballsAdded) && lastTime == old(lastTime)
      ensures Valid()
      ensures TotalCount(bins) == SettledCount(balls)
    {
      var i := 0;
      while i < |balls|
        invariant 0 <= i <= |balls| == |old(balls)|
        invariant BoardConfig.Valid(cfg) && |bins| == cfg.binCount
        invariant (balls[..i], bins) == StepBalls(cfg, pins, old(bins), old(balls), delta, deflect, i)
        invariant balls[i..] == old(balls)[i..]
        invariant pins == old(pins) && ballsAdded == old(ballsAdded) && lastTime == old(lastTime)
      {
        ghost var before := bins;
        var ball := balls[i];
        assert ball == old(balls)[i] by {
          assert balls[i..][0] == old(balls)[i..][0];
        }
        if !ball.settled {
          ball := StepFalling(i, ball, delta, deflect);
          balls := balls[i := ball];
        }
        assert (ball, bins) == StepBall(cfg, pins, before, i, deflect, delta, old(balls)[i]);
        assert balls[..i + 1] == balls[..i] + [ball];
        assert balls[i + 1..] == old(balls)[i + 1..] by {
          assert balls[i + 1..] == balls[i..][1..];
          assert old(balls)[i + 1..] == old(balls)[i..][1..];
        }
        i := i + 1;
      }
      assert balls[..i] == balls;
      StepBallsConsistent(cfg, pins, old(bins), old(balls), delta, deflect, |old(balls)|);
      assert balls + old(balls)[|old(balls)|..] == balls;
      Conservation(cfg, bins, balls);
    }

    /** One animation frame at the given clock time: the elapsed time since the last
        frame, in seconds, drives a physics step only when it is positive and under
        0.2 s (a tab that was in the background skips the step). */
    method Animate(time: real, deflect: Deflection)
      requires Valid()
      modifies this
      ensures lastTime == time && pins == old(pins) && ballsAdded == old(ballsAdded)
      ensures var delta := (time - old(lastTime)) / 1000.0;
              if 0.0 < delta < 0.2 then (balls, bins) == StepBalls(cfg, pins, old(bins), old(balls), delta, deflect, |old(balls)|)
              else balls == old(balls) && bins == old(bins)
      ensures Valid()
    {
      var delta := (time - lastTime) / 1000.0;
      lastTime := time;
      if delta > 0.0 && delta < 0.2 {
        Update(delta, deflect);
      }
    }

    /** The decision half of addBall: the settled count, the first falling ball, the
        edge bins and the search, in that order, exactly as ChooseEviction says. */
    method PickEviction() returns (eviction: Eviction)
      requires Valid()
      ensures eviction == ChooseEviction(cfg, bins, balls)
    {
      var settledCount := CountSettled(balls);
      eviction := Keep;
      if |balls| >= cfg.maxBalls || settledCount >= cfg.maxSettledBalls {
        var first := FindFirstUnsettled(balls);
        if first.Some? {
          eviction := DropFalling(first.value);
        } else if settledCount >= cfg.maxSettledBalls {
          var edge := FindEdgeChoice(cfg, bins, balls);
          if edge.Some? {
            eviction := DropSettled(edge.value.0, edge.value.1, false);
          } else if settledCount > 0 {
            var order := BuildSearchOrder(cfg.binCount);
            var found := FindSearchChoice(bins, balls, order);
            if found.Some? {
              eviction := DropSettled(found.value.0, found.value.1, true);
            }
          }
        }
      }
    }

    /** The removal half of addBall: splice the chosen ball out, decrement its bin's
        counter when it is positive, and re-stack that bin after a search eviction. */
    method CarryOut(eviction: Eviction)
      requires |bins| == cfg.binCount
      requires eviction.DropFalling? ==> eviction.index < |balls|
      requires eviction.DropSettled? ==> eviction.index < |balls| && eviction.bin < |bins|
      modifies this
      ensures (balls, bins) == Evict(cfg, old(bins), old(balls), eviction)
      ensures pins == old(pins) && ballsAdded == old(ballsAdded) && lastTime == old(lastTime)
    {
      match eviction
      case Keep =>
      case DropFalling(i) =>
        balls := balls[..i] + balls[i + 1..];
      case DropSettled(p, k, restack) =>
        balls := balls[..p] + balls[p + 1..];
        if bins[k].ballCount > 0 {
          bins := bins[k := bins[k].(ballCount := bins[k].ballCount - 1)];
        }
        if restack {
          balls := RestackBin(cfg, bins, k, balls);
        }
    }

    /** addBall: at most one ball is evicted as ChooseEviction says, and a new falling
        ball is dropped at the funnel. The invariant survives, so the counters still
        add up to the settled balls. */
    method AddBall(random: real)
      requires Valid() && 0.0 <= random < 1.0
      modifies this
      ensures (balls, bins) == AddBallResult(cfg, old(bins), old(balls), random)
      ensures pins == old(pins) && ballsAdded == old(ballsAdded) + 1 && lastTime == old(lastTime)
      ensures Valid()
      ensures TotalCount(bins) == SettledCount(balls)
    {
      var eviction := PickEviction();
      CarryOut(eviction);
      var startX := (random - 0.5) * 0.2;
      var startY := FunnelY(cfg);
      var ball := Ball(Vec(startX, startY), Zero, false);
      assert ball == NewBall(cfg, random);
      balls := balls + [ball];
      ballsAdded := ballsAdded + 1;
      AddBallConsistent(cfg, old(bins), old(balls), random);
      Conservation(cfg, bins, balls);
    }

    /** resetBoard: the balls are popped until none is left, every counter goes back
        to zero and the added-ball count restarts; the board is as freshly built. */
    method ResetBoard()
      requires Valid()
      modifies this
      ensures balls == [] && bins == ResetBins(old(bins)) && bins == BinLayout(cfg)
      ensures ballsAdded == 0 && pins == old(pins) && lastTime == old(lastTime)
      ensures Valid()
    {
      while |balls| > 0
        invariant bins == old(bins) && pins == old(pins) && lastTime == old(lastTime)
        decreases |balls|
      {
        balls := balls[..|balls| - 1];
      }
      ghost var reset := ResetBins(old(bins));
      var k := 0;
      while k < |bins|
        invariant 0 <= k <= |bins| == |old(bins)|
        invariant forall j | 0 <= j < k :: bins[j] == reset[j]
        invariant forall j | k <= j < |bins| :: bins[j] == old(bins)[j]
        invariant balls == [] && pins == old(pins) && lastTime == old(lastTime)
      {
        bins := bins[k := bins[k].(ballCount := 0)];
        k := k + 1;
      }
      assert bins == reset;
      ballsAdded := 0;
      ResetRestoresLayout(cfg, old(bins));
      EmptyBoardConsistent(cfg);
    }
  }
}
