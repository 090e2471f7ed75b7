/** Board parameters of the Galton board and the dimensions derived from them. */
module BoardConfig {

  /** The fields of the global configuration object that the simulation reads.
      Colours, camera settings, the scale factor and the drop delay only affect
      rendering and timing and are not part of this record. */
  datatype Config = Config(
    pinSize: real,
    pinSpacing: real,
    rows: nat,
    binCount: nat,
    gravity: real,
    restitution: real,
    damping: real,
    maxBalls: nat,
    maxSettledBalls: nat,
    ballStackOffset: real,
    pinAreaOffset: real,
    trapezoidTopWidth: real)

  /** The values the program starts with. */
  const Default: Config :=
    Config(0.08, 0.5, 20, 21, 9.8, 0.5, 0.98, 1000, 1000, 0.3, 0.3, 0.5)

  /** Settled balls are matched to a bin when their x is closer than this to the bin's x. */
  const BinMatchTolerance: real := 0.1

  /** A configuration the simulation can run on: the pin spacing keeps bin centres
      further apart than twice the matching tolerance, the trapezoid interpolation
      has at least two rows to divide by, and there is at least one bin. */
  predicate Valid(c: Config) {
    && c.pinSpacing > 2.0 * BinMatchTolerance
    && c.rows >= 2
    && c.binCount >= 1
    && 0.0 <= c.trapezoidTopWidth <= 1.0
  }

  /** The ball radius, 24% of the pin spacing: a ball always fits well inside one bin. */
  function BallSize(c: Config): (r: real)
    ensures c.pinSpacing > 0.0 ==> 0.0 < r < c.pinSpacing / 4.0
    ensures c.pinSpacing <= 0.0 ==> r <= 0.0
  {
    c.pinSpacing * 0.24
  }

  function BoardWidth(c: Config): real { c.binCount as real * c.pinSpacing }

  function BoardHeight(c: Config): real { c.rows as real * c.pinSpacing }

  /** The leftmost and rightmost x a ball centre may take: one ball radius inside the walls. */
  function LeftLimit(c: Config): real { -BoardWidth(c) / 2.0 + BallSize(c) }

  function RightLimit(c: Config): real { BoardWidth(c) / 2.0 - BallSize(c) }

  /** Above this line a falling ball is pushed back down. */
  function TopY(c: Config): real { BoardHeight(c) * (0.3 + c.pinAreaOffset) }

  /** Below this line a falling ball enters the collection area. */
  function BottomY(c: Config): real { -BoardHeight(c) * 0.8 }

  /** The floor of every bin. */
  function BinFloorY(c: Config): real { -BoardHeight(c) * 1.05 }

  /** The height at which new balls are dropped. */
  function FunnelY(c: Config): real { BoardHeight(c) * (0.4 + c.pinAreaOffset) }

  /** The height of the top pin row. */
  function PinTopY(c: Config): real { BoardHeight(c) * (0.2 + c.pinAreaOffset) }

  /** The base height used when a bin is re-stacked after an eviction. */
  function RestackBaseY(c: Config): real { -BoardHeight(c) * 0.7 }

  /** Vertical distance between two stacked balls. */
  function StackStep(c: Config): real { BallSize(c) * c.ballStackOffset }

  /** The default configuration is one the simulation can run on. */
  lemma DefaultIsValid()
    ensures Valid(Default)
  {
  }

  /** In a valid board the collection line lies above the bin floor, and a ball
      resting half a radius above the floor is below the collection line. */
  lemma CollectionLineAboveFloor(c: Config)
    requires Valid(c)
    ensures BinFloorY(c) < BinFloorY(c) + BallSize(c) * 0.5 < BottomY(c) < 0.0
  {
    var h := BoardHeight(c);
    assert h - 2.0 * c.pinSpacing == (c.rows - 2) as real * c.pinSpacing;
    assert (c.rows - 2) as real * c.pinSpacing >= 0.0;
  }
}
