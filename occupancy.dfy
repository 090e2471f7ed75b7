/** Balls, bin counters, and the invariant that ties the two together. */
module Occupancy {
  import opened BoardConfig
  import opened Layout

  /** A ball: its position and velocity in the board plane and whether it rests in a bin. */
  datatype Ball = Ball(pos: Vec, vel: Vec, settled: bool)

  const Zero: Vec := Vec(0.0, 0.0)

  /** Number of settled balls whose x is exactly x. */
  function CountAt(balls: seq<Ball>, x: real): nat {
    if balls == [] then 0
    else CountAt(balls[..|balls| - 1], x) + (if balls[|balls| - 1].settled && balls[|balls| - 1].pos.x == x then 1 else 0)
  }

  /** Number of settled balls: the length of `balls.filter(ball => ball.settled)`. */
  function SettledCount(balls: seq<Ball>): nat {
    if balls == [] then 0
    else SettledCount(balls[..|balls| - 1]) + (if balls[|balls| - 1].settled then 1 else 0)
  }

  /** The sum of all bin counters. */
  function TotalCount(bins: seq<Bin>): nat {
    if bins == [] then 0 else TotalCount(bins[..|bins| - 1]) + bins[|bins| - 1].ballCount
  }

  lemma {:induction false} CountAtConcat(a: seq<Ball>, b: seq<Ball>, x: real)
    ensures CountAt(a + b, x) == CountAt(a, x) + CountAt(b, x)
  {
    if b != [] {
      assert (a + b)[..|a + b| - 1] == a + b[..|b| - 1];
      CountAtConcat(a, b[..|b| - 1], x);
    } else {
      assert a + b == a;
    }
  }

  lemma {:induction false} SettledCountConcat(a: seq<Ball>, b: seq<Ball>)
    ensures SettledCount(a + b) == SettledCount(a) + SettledCount(b)
  {
    if b != [] {
      assert (a + b)[..|a + b| - 1] == a + b[..|b| - 1];
      SettledCountConcat(a, b[..|b| - 1]);
    } else {
      assert a + b == a;
    }
  }

  /** A settled ball is at rest: zero velocity, x exactly at the centre of an existing bin. */
  predicate AtRest(c: Config, b: Ball)
    requires c.pinSpacing > 0.0
  {
    b.settled ==>
      && b.vel == Zero
      && 0 <= BinIndexOf(c, b.pos.x) < c.binCount
      && b.pos.x == BinCenter(c, BinIndexOf(c, b.pos.x))
  }

  /** The bins stand where createBoard put them (only their counters change). */
  predicate BinsLaidOut(c: Config, bins: seq<Bin>) {
    && |bins| == c.binCount
    && forall k | 0 <= k < |bins| :: bins[k].pos == Vec(BinCenter(c, k), BinFloorY(c))
  }

  /** The simulation invariant: every settled ball rests in a bin, and every
      bin counter equals the number of settled balls resting in that bin. */
  predicate Consistent(c: Config, bins: seq<Bin>, balls: seq<Ball>) {
    && Valid(c)
    && BinsLaidOut(c, bins)
    && (forall i | 0 <= i < |balls| :: AtRest(c, balls[i]))
    && (forall k | 0 <= k < |bins| :: bins[k].ballCount == CountAt(balls, BinCenter(c, k)))
  }

  /** A freshly laid out board with no balls is consistent. */
  lemma EmptyBoardConsistent(c: Config)
    requires Valid(c)
    ensures Consistent(c, BinLayout(c), [])
  {
  }

  // ---------------------------------------------------------------------------
  // Conservation: the counters add up to the number of settled balls.

  /** Settled balls counted bin by bin over the first k bins. */
  function CentersCount(c: Config, balls: seq<Ball>, k: nat): nat {
    if k == 0 then 0 else CentersCount(c, balls, k - 1) + CountAt(balls, BinCenter(c, k - 1))
  }

  /** How many of the first k bin centres ball b is settled at. */
  function Hits(c: Config, b: Ball, k: nat): nat {
    if k == 0 then 0 else Hits(c, b, k - 1) + (if b.settled && b.pos.x == BinCenter(c, k - 1) then 1 else 0)
  }

  lemma {:induction false} HitsAtRest(c: Config, b: Ball, k: nat)
    requires c.pinSpacing > 0.0 && AtRest(c, b)
    ensures Hits(c, b, k) == if b.settled && BinIndexOf(c, b.pos.x) < k then 1 else 0
  {
    if k > 0 {
      HitsAtRest(c, b, k - 1);
      BinRoundTrip(c, k - 1);
    }
  }

  lemma {:induction false} CentersCountSnoc(c: Config, s: seq<Ball>, b: Ball, k: nat)
    ensures CentersCount(c, s + [b], k) == CentersCount(c, s, k) + Hits(c, b, k)
  {
    if k > 0 {
      CentersCountSnoc(c, s, b, k - 1);
      assert (s + [b])[..|s + [b]| - 1] == s;
    }
  }

  lemma {:induction false} CentersCountAll(c: Config, balls: seq<Ball>)
    requires c.pinSpacing > 0.0
    requires forall i | 0 <= i < |balls| :: AtRest(c, balls[i])
    ensures CentersCount(c, balls, c.binCount) == SettledCount(balls)
  {
    if balls == [] {
      CentersCountEmpty(c, c.binCount);
    } else {
      var s := balls[..|balls| - 1];
      var b := balls[|balls| - 1];
      assert balls == s + [b];
      CentersCountAll(c, s);
      CentersCountSnoc(c, s, b, c.binCount);
      HitsAtRest(c, b, c.binCount);
    }
  }

  lemma {:induction false} CentersCountEmpty(c: Config, k: nat)
    ensures CentersCount(c, [], k) == 0
  {
    if k > 0 {
      CentersCountEmpty(c, k - 1);
    }
  }

  lemma {:induction false} TotalCountPrefix(c: Config, bins: seq<Bin>, balls: seq<Ball>, k: nat)
    requires k <= |bins|
    requires forall j | 0 <= j < |bins| :: bins[j].ballCount == CountAt(balls, BinCenter(c, j))
    ensures TotalCount(bins[..k]) == CentersCount(c, balls, k)
  {
    if k > 0 {
      assert bins[..k][..k - 1] == bins[..k - 1];
      TotalCountPrefix(c, bins, balls, k - 1);
    }
  }

  /** Conservation: the bin counters add up to the number of settled balls. */
  lemma Conservation(c: Config, bins: seq<Bin>, balls: seq<Ball>)
    requires Consistent(c, bins, balls)
    ensures TotalCount(bins) == SettledCount(balls)
  {
    TotalCountPrefix(c, bins, balls, |bins|);
    assert bins[..|bins|] == bins;
    CentersCountAll(c, balls);
  }
}
