/** One physics step for every falling ball: integration, pin contact,
    settling into a bin, the floor safety net, and the wall and top clamps. */
module Physics {
  import opened BoardConfig
  import opened Layout
  import opened Occupancy

  /** The result of a ball touching a pin: given the ball's index, the pin's index
      and the ball as it stands, where the ball goes and how fast. The reflection
      needs a square root and a random jitter, so it is left to the caller; only
      the position and the velocity of the result are used. */
  type Deflection = (nat, nat, Ball) -> Ball

  /** Gravity, then damping, then the position update, for one time step.
      Damping never speeds up the sideways motion, a ball over a forward step moves
      the way its new velocity points, and a ball that is not rising starts to fall. */
  function Integrate(c: Config, delta: real, b: Ball): (r: Ball)
    ensures r.settled == b.settled
    ensures 0.0 <= c.damping <= 1.0 ==>
              (b.vel.x >= 0.0 ==> 0.0 <= r.vel.x <= b.vel.x) && (b.vel.x <= 0.0 ==> b.vel.x <= r.vel.x <= 0.0)
    ensures delta > 0.0 ==>
              (r.pos.x < b.pos.x <==> r.vel.x < 0.0) && (r.pos.y < b.pos.y <==> r.vel.y < 0.0)
    ensures c.gravity > 0.0 && delta > 0.0 && c.damping > 0.0 && b.vel.y <= 0.0 ==>
              r.vel.y < 0.0 && r.pos.y < b.pos.y
  {
    var vy := b.vel.y + -c.gravity * delta;
    var v := Vec(b.vel.x * c.damping, vy * c.damping);
    Ball(Vec(b.pos.x + v.x * delta, b.pos.y + v.y * delta), v, b.settled)
  }

  /** Contact distance between a ball centre and a pin centre. */
  function MinDist(c: Config): real {
    BallSize(c) / 2.0 + c.pinSize / 2.0
  }

  function DistSq(p: Vec, q: Vec): real {
    (p.x - q.x) * (p.x - q.x) + (p.y - q.y) * (p.y - q.y)
  }

  /** `distance < minDist`, stated without the square root. */
  predicate Overlaps(c: Config, p: Vec, pin: Vec) {
    var md := MinDist(c);
    md > 0.0 && DistSq(p, pin) < md * md
  }

  /** The pin loop from pin j on: each overlapping pin, in order, deflects the ball. */
  function PinPass(c: Config, pins: seq<Vec>, ballIndex: nat, deflect: Deflection, b: Ball, j: nat): (r: Ball)
    decreases |pins| - j
    ensures r.settled == b.settled
  {
    if j >= |pins| then b
    else
      var next := if Overlaps(c, b.pos, pins[j]) then
                    var d := deflect(ballIndex, j, b); b.(pos := d.pos, vel := d.vel)
                  else b;
      PinPass(c, pins, ballIndex, deflect, next, j + 1)
  }

  function Max(a: real, b: real): real {
    if a >= b then a else b
  }

  /** Bins keep their number and their positions; only counters change. */
  predicate SameBins(before: seq<Bin>, after: seq<Bin>) {
    |after| == |before| && forall k | 0 <= k < |before| :: after[k].pos == before[k].pos
  }

  /** Below the collection line, a ball over an existing bin lands on that bin's
      stack, stops, and is counted in the bin. */
  function Settle(c: Config, bins: seq<Bin>, b: Ball): (r: (Ball, seq<Bin>))
    requires c.pinSpacing > 0.0 && |bins| == c.binCount
    ensures SameBins(bins, r.1)
  {
    if b.pos.y < BottomY(c) then
      var k := BinIndexOf(c, b.pos.x);
      if 0 <= k < c.binCount then
        var n := bins[k].ballCount;
        var y := Max(BinFloorY(c) + BallSize(c) * 0.5, BottomY(c) + n as real * BallSize(c) * c.ballStackOffset);
        (Ball(Vec(bins[k].pos.x, y), Zero, true), bins[k := bins[k].(ballCount := n + 1)])
      else (b, bins)
    else (b, bins)
  }

  /** The safety net: a ball below the bin floor over an existing bin is put on
      that bin's floor, stopped and counted. */
  function FloorClamp(c: Config, bins: seq<Bin>, b: Ball): (r: (Ball, seq<Bin>))
    requires c.pinSpacing > 0.0 && |bins| == c.binCount
    ensures SameBins(bins, r.1)
  {
    if b.pos.y < BinFloorY(c) then
      var k := BinIndexOf(c, b.pos.x);
      if 0 <= k < c.binCount then
        var n := bins[k].ballCount;
        (Ball(Vec(bins[k].pos.x, BinFloorY(c) + BallSize(c) * 0.5), Zero, true), bins[k := bins[k].(ballCount := n + 1)])
      else (b, bins)
    else (b, bins)
  }

  /** The side walls: a ball past a wall is put back against it and bounces. */
  function ClampWalls(c: Config, b: Ball): (r: Ball)
    ensures LeftLimit(c) <= RightLimit(c) ==> LeftLimit(c) <= r.pos.x <= RightLimit(c)
    ensures LeftLimit(c) <= b.pos.x <= RightLimit(c) ==> r == b
    ensures r.pos.y == b.pos.y && r.vel.y == b.vel.y && r.settled == b.settled
    ensures r.vel.x == b.vel.x || r.vel.x == b.vel.x * -c.restitution
  {
    if b.pos.x < LeftLimit(c) then
      b.(pos := b.pos.(x := LeftLimit(c)), vel := b.vel.(x := b.vel.x * -c.restitution))
    else if b.pos.x > RightLimit(c) then
      b.(pos := b.pos.(x := RightLimit(c)), vel := b.vel.(x := b.vel.x * -c.restitution))
    else b
  }

  /** The top: a ball above the top boundary is put back on it and bounces down. */
  function ClampTop(c: Config, b: Ball): (r: Ball)
    ensures r.pos.y <= TopY(c)
    ensures b.pos.y <= TopY(c) ==> r == b
    ensures r.pos.x == b.pos.x && r.vel.x == b.vel.x && r.settled == b.settled
    ensures r.vel.y == b.vel.y || r.vel.y == b.vel.y * -c.restitution
  {
    if b.pos.y > TopY(c) then
      b.(pos := b.pos.(y := TopY(c)), vel := b.vel.(y := b.vel.y * -c.restitution))
    else b
  }

  /** Where a falling ball is after integration and the pin loop, before settling. */
  function Moved(c: Config, pins: seq<Vec>, ballIndex: nat, deflect: Deflection, delta: real, b: Ball): Ball {
    PinPass(c, pins, ballIndex, deflect, Integrate(c, delta, b), 0)
  }

  /** One ball's share of the physics step, with the bins as they stand when it is reached. */
  function StepBall(c: Config, pins: seq<Vec>, bins: seq<Bin>, ballIndex: nat, deflect: Deflection, delta: real, b: Ball): (r: (Ball, seq<Bin>))
    requires c.pinSpacing > 0.0 && |bins| == c.binCount
    ensures SameBins(bins, r.1)
    ensures b.settled ==> r == (b, bins)
  {
    if b.settled then (b, bins)
    else
      var landed := Settle(c, bins, Moved(c, pins, ballIndex, deflect, delta, b));
      var floored := FloorClamp(c, landed.1, landed.0);
      (ClampTop(c, ClampWalls(c, floored.0)), floored.1)
  }

  /** The physics step over the first n balls, in list order: the new first n
      balls and the bins after them. Later balls see the counters earlier ones raised. */
  function StepBalls(c: Config, pins: seq<Vec>, bins: seq<Bin>, balls: seq<Ball>, delta: real, deflect: Deflection, n: nat): (r: (seq<Ball>, seq<Bin>))
    requires c.pinSpacing > 0.0 && |bins| == c.binCount && n <= |balls|
    ensures |r.0| == n && SameBins(bins, r.1)
  {
    if n == 0 then ([], bins)
    else
      var before := StepBalls(c, pins, bins, balls, delta, deflect, n - 1);
      var last := StepBall(c, pins, before.1, n - 1, deflect, delta, balls[n - 1]);
      (before.0 + [last.0], last.1)
  }

  // ---------------------------------------------------------------------------
  // Properties of one ball's step

  /** Whether a falling ball lands: below the collection line and over an existing bin. */
  predicate Lands(c: Config, m: Ball)
    requires c.pinSpacing > 0.0
  {
    m.pos.y < BottomY(c) && 0 <= BinIndexOf(c, m.pos.x) < c.binCount
  }

  /** The floor safety net never changes what the first settling block produced:
      a ball that landed rests above the floor, and one that did not is either above
      the collection line or over no bin. */
  lemma FloorClampInert(c: Config, bins: seq<Bin>, m: Ball)
    requires Valid(c) && |bins| == c.binCount
    ensures var landed := Settle(c, bins, m);
            FloorClamp(c, landed.1, landed.0) == landed
  {
    CollectionLineAboveFloor(c);
  }

  /** Settling: a falling ball ends settled exactly when it lands; then it is at
      rest on its bin's centre and that one bin's counter rose by one; otherwise
      the ball is still falling and no counter changed. */
  lemma SettlesIff(c: Config, pins: seq<Vec>, bins: seq<Bin>, ballIndex: nat, deflect: Deflection, delta: real, b: Ball)
    requires Valid(c) && BinsLaidOut(c, bins) && !b.settled
    ensures var m := Moved(c, pins, ballIndex, deflect, delta, b);
            var r := StepBall(c, pins, bins, ballIndex, deflect, delta, b);
            var k := BinIndexOf(c, m.pos.x);
            && (r.0.settled <==> Lands(c, m))
            && (Lands(c, m) ==>
                  && r.0.vel == Zero
                  && r.0.pos.x == BinCenter(c, k)
                  && r.1 == bins[k := bins[k].(ballCount := bins[k].ballCount + 1)])
            && (!Lands(c, m) ==> r.1 == bins)
  {
    var m := Moved(c, pins, ballIndex, deflect, delta, b);
    var landed := Settle(c, bins, m);
    FloorClampInert(c, bins, m);
    if Lands(c, m) {
      var k := BinIndexOf(c, m.pos.x);
      BinCenterInsideWalls(c, k);
      assert landed.0.pos.x == BinCenter(c, k);
      assert ClampWalls(c, landed.0) == landed.0;
    }
  }

  /** After its step a ball that was falling is inside the side walls (ball radius
      included) and not above the top boundary. */
  lemma StepStaysOnBoard(c: Config, pins: seq<Vec>, bins: seq<Bin>, ballIndex: nat, deflect: Deflection, delta: real, b: Ball)
    requires Valid(c) && |bins| == c.binCount && !b.settled
    ensures var r := StepBall(c, pins, bins, ballIndex, deflect, delta, b).0;
            && LeftLimit(c) <= r.pos.x <= RightLimit(c)
            && r.pos.y <= TopY(c)
  {
    assert LeftLimit(c) <= RightLimit(c) by {
      assert BoardWidth(c) - c.pinSpacing == (c.binCount - 1) as real * c.pinSpacing;
      MulNonneg((c.binCount - 1) as real, c.pinSpacing);
    }
  }

  /** One ball's step keeps the simulation invariant, whatever the pins do to it. */
  lemma StepBallConsistent(c: Config, pins: seq<Vec>, bins: seq<Bin>, deflect: Deflection, delta: real,
                           p: seq<Ball>, b: Ball, s: seq<Ball>)
    requires Consistent(c, bins, p + [b] + s)
    ensures var r := StepBall(c, pins, bins, |p|, deflect, delta, b);
            Consistent(c, r.1, p + [r.0] + s)
  {
    var r := StepBall(c, pins, bins, |p|, deflect, delta, b);
    if !b.settled {
      SettlesIff(c, pins, bins, |p|, deflect, delta, b);
      var m := Moved(c, pins, |p|, deflect, delta, b);
      var k := BinIndexOf(c, m.pos.x);
      assert (p + [b] + s)[|p|] == b;
      forall i | 0 <= i < |p + [r.0] + s|
        ensures AtRest(c, (p + [r.0] + s)[i])
      {
        if i == |p| {
          if r.0.settled {
            BinRoundTrip(c, k);
          }
        } else {
          assert (p + [r.0] + s)[i] == (p + [b] + s)[i];
        }
      }
      forall j | 0 <= j < |r.1|
        ensures r.1[j].ballCount == CountAt(p + [r.0] + s, BinCenter(c, j))
      {
        var x := BinCenter(c, j);
        CountAtConcat(p + [b], s, x);
        CountAtConcat(p, [b], x);
        CountAtConcat(p + [r.0], s, x);
        CountAtConcat(p, [r.0], x);
        assert CountAt([b], x) == 0 by {
          assert [b][..0] == [];
        }
        assert [r.0][..0] == [];
        if Lands(c, m) {
          if j != k {
            BinRoundTrip(c, j);
            BinRoundTrip(c, k);
            assert BinCenter(c, j) != BinCenter(c, k);
          }
        }
      }
    }
  }

  // ---------------------------------------------------------------------------
  // Properties of the whole step

  /** The step is sequential: ball i is stepped against the counters as the first i balls left them. */
  lemma {:induction false} StepBallsAt(c: Config, pins: seq<Vec>, bins: seq<Bin>, balls: seq<Ball>, delta: real, deflect: Deflection, n: nat, i: nat)
    requires c.pinSpacing > 0.0 && |bins| == c.binCount && i < n <= |balls|
    ensures StepBalls(c, pins, bins, balls, delta, deflect, n).0[i]
         == StepBall(c, pins, StepBalls(c, pins, bins, balls, delta, deflect, i).1, i, deflect, delta, balls[i]).0
  {
    if i < n - 1 {
      StepBallsAt(c, pins, bins, balls, delta, deflect, n - 1, i);
    }
  }

  /** The step keeps the simulation invariant: after the first n balls have been
      stepped (the rest untouched), every settled ball rests in a bin and every counter
      equals the number of settled balls in its bin. */
  lemma {:induction false} StepBallsConsistent(c: Config, pins: seq<Vec>, bins: seq<Bin>, balls: seq<Ball>, delta: real, deflect: Deflection, n: nat)
    requires Consistent(c, bins, balls) && n <= |balls|
    ensures var r := StepBalls(c, pins, bins, balls, delta, deflect, n);
            Consistent(c, r.1, r.0 + balls[n..])
  {
    if n == 0 {
      var r := StepBalls(c, pins, bins, balls, delta, deflect, n);
      assert r.0 + balls[n..] == balls;
    } else {
      var before := StepBalls(c, pins, bins, balls, delta, deflect, n - 1);
      var b := balls[n - 1];
      var last := StepBall(c, pins, before.1, n - 1, deflect, delta, b);
      assert Consistent(c, before.1, before.0 + [b] + balls[n..]) by {
        StepBallsConsistent(c, pins, bins, balls, delta, deflect, n - 1);
        assert before.0 + balls[n - 1..] == before.0 + [b] + balls[n..];
      }
      assert Consistent(c, last.1, before.0 + [last.0] + balls[n..]) by {
        StepBallConsistent(c, pins, before.1, deflect, delta, before.0, b, balls[n..]);
      }
      assert StepBalls(c, pins, bins, balls, delta, deflect, n).0 + balls[n..] == before.0 + [last.0] + balls[n..];
    }
  }

  /** After a whole step, settled balls have not moved, and every ball that was
      falling is inside the side walls and not above the top boundary. */
  lemma StepEffect(c: Config, pins: seq<Vec>, bins: seq<Bin>, balls: seq<Ball>, delta: real, deflect: Deflection, i: nat)
    requires Valid(c) && |bins| == c.binCount && i < |balls|
    ensures var r := StepBalls(c, pins, bins, balls, delta, deflect, |balls|).0[i];
            && (balls[i].settled ==> r == balls[i])
            && (!balls[i].settled ==>
                  && LeftLimit(c) <= r.pos.x <= RightLimit(c)
                  && r.pos.y <= TopY(c))
  {
    StepBallsAt(c, pins, bins, balls, delta, deflect, |balls|, i);
    var before := StepBalls(c, pins, bins, balls, delta, deflect, i).1;
    if !balls[i].settled {
      StepStaysOnBoard(c, pins, before, i, deflect, delta, balls[i]);
    }
  }
}
