/** Where the board puts its pins and its bins (the arithmetic of createBoard). */
module Layout {
  import opened BoardConfig

  /** A point of the board plane; the board is planar, so z is always 0 and left out. */
  datatype Vec = Vec(x: real, y: real)

  /** A bin: the position of its floor and the number of balls that have settled in it. */
  datatype Bin = Bin(pos: Vec, ballCount: nat)

  lemma MulNonneg(a: real, b: real)
    requires a >= 0.0 && b >= 0.0
    ensures a * b >= 0.0
  {
  }

  /** Multiplying by a positive number keeps the sign. */
  lemma SignScale(a: real, b: real)
    requires b > 0.0
    ensures a > 0.0 <==> a * b > 0.0
    ensures a >= 0.0 <==> a * b >= 0.0
  {
    if a < 0.0 {
      assert (-a) * b > 0.0;
    }
  }

  // ---------------------------------------------------------------------------
  // Pins

  /** How far down the pin field a row is, from 0 (top row) to 1 (bottom row). */
  function Progress(c: Config, row: nat): real
    requires c.rows >= 2
  {
    row as real / (c.rows - 1) as real
  }

  /** Pins in a row: the floored linear interpolation between
      trapezoidTopWidth * binCount (top row) and binCount (bottom row). */
  function PinCount(c: Config, row: nat): int
    requires c.rows >= 2
  {
    RowWidth(c, row).Floor
  }

  /** The unfloored interpolated width of a row, in pins. */
  function RowWidth(c: Config, row: nat): real
    requires c.rows >= 2
  {
    var n := c.binCount as real;
    c.trapezoidTopWidth * n + (1.0 - c.trapezoidTopWidth) * n * Progress(c, row)
  }

  /** The horizontal shift that centres a row of PinCount pins on the board. */
  function RowOffset(c: Config, row: nat): real
    requires c.rows >= 2
  {
    (c.binCount as real - PinCount(c, row) as real) * c.pinSpacing / 2.0
  }

  function PinX(c: Config, row: nat, i: int): real
    requires c.rows >= 2
  {
    i as real * c.pinSpacing + RowOffset(c, row) - BoardWidth(c) / 2.0 + c.pinSpacing / 2.0
  }

  function PinY(c: Config, row: int): real {
    -(row as real) * c.pinSpacing + PinTopY(c)
  }

  /** The pins of one row, left to right. */
  function RowPins(c: Config, row: nat): seq<Vec>
    requires c.rows >= 2
  {
    var count := PinCount(c, row);
    if count <= 0 then [] else seq(count, i => Vec(PinX(c, row, i), PinY(c, row)))
  }

  /** The pins of the first `r` rows, row by row. */
  function PinsBefore(c: Config, r: nat): seq<Vec>
    requires c.rows >= 2
  {
    if r == 0 then [] else PinsBefore(c, r - 1) + RowPins(c, r - 1)
  }

  /** Every pin of the board, in the order createBoard pushes them. */
  function PinLayout(c: Config): seq<Vec>
    requires c.rows >= 2
  {
    PinsBefore(c, c.rows)
  }

  /** The bottom row is as wide as the row of bins. */
  lemma LastRowFull(c: Config)
    requires Valid(c)
    ensures PinCount(c, c.rows - 1) == c.binCount
  {
    var n := c.binCount as real;
    var t := c.trapezoidTopWidth;
    assert Progress(c, c.rows - 1) == 1.0;
    assert t * n + (1.0 - t) * n * 1.0 == n;
  }

  /** The interpolated width lies between the top width and the full width. */
  lemma WidthBetween(c: Config, row: nat)
    requires Valid(c) && row < c.rows
    ensures 0.0 <= c.trapezoidTopWidth * c.binCount as real <= RowWidth(c, row) <= c.binCount as real
  {
    var n := c.binCount as real;
    var t := c.trapezoidTopWidth;
    var p := Progress(c, row);
    assert 0.0 <= p <= 1.0;
    assert 0.0 <= (1.0 - t) * n;
    MulNonneg(1.0 - t, n);
    MulNonneg(t, n);
    MulNonneg((1.0 - t) * n, p);
    MulNonneg((1.0 - t) * n, 1.0 - p);
    assert RowWidth(c, row) == t * n + (1.0 - t) * n * p;
  }

  /** No row holds more pins than there are bins, so every row offset is non-negative. */
  lemma RowWithinBins(c: Config, row: nat)
    requires Valid(c) && row < c.rows
    ensures 0 <= PinCount(c, row) <= c.binCount
    ensures RowOffset(c, row) >= 0.0
  {
    WidthBetween(c, row);
    var n := c.binCount as real;
    var w := RowWidth(c, row);
    var k := PinCount(c, row);
    assert k as real <= w < k as real + 1.0;
    MulNonneg(n - k as real, c.pinSpacing);
  }

  /** Rows never get narrower going down: the pin field is a trapezoid. */
  lemma RowsWiden(c: Config, r1: nat, r2: nat)
    requires Valid(c) && r1 <= r2 < c.rows
    ensures PinCount(c, r1) <= PinCount(c, r2)
  {
    var n := c.binCount as real;
    var t := c.trapezoidTopWidth;
    assert Progress(c, r1) <= Progress(c, r2) by {
      var d := (c.rows - 1) as real;
      assert r1 as real / d <= r2 as real / d;
    }
    assert 0.0 <= (1.0 - t) * n;
    assert (1.0 - t) * n * Progress(c, r1) <= (1.0 - t) * n * Progress(c, r2);
  }

  /** Every row is centred: pin i and pin count-1-i sit symmetrically about x = 0. */
  lemma RowCentred(c: Config, row: nat, i: int)
    requires c.rows >= 2 && 0 <= i < PinCount(c, row)
    ensures PinX(c, row, i) + PinX(c, row, PinCount(c, row) - 1 - i) == 0.0
  {
    var k := PinCount(c, row) as real;
    var ps := c.pinSpacing;
    var n := c.binCount as real;
    var j := (PinCount(c, row) - 1 - i) as real;
    assert i as real * ps + j * ps == (k - 1.0) * ps;
    assert 2.0 * RowOffset(c, row) == (n - k) * ps;
    assert (k - 1.0) * ps + (n - k) * ps == n * ps - ps;
    assert BoardWidth(c) == n * ps;
  }

  /** Every pin of a row lies at least half a pin spacing inside the side walls. */
  lemma RowInsideBoard(c: Config, row: nat, i: int)
    requires Valid(c) && row < c.rows && 0 <= i < PinCount(c, row)
    ensures -BoardWidth(c) / 2.0 + c.pinSpacing / 2.0 <= PinX(c, row, i)
    ensures PinX(c, row, i) <= BoardWidth(c) / 2.0 - c.pinSpacing / 2.0
  {
    RowWithinBins(c, row);
    var ps := c.pinSpacing;
    var k := PinCount(c, row) as real;
    var n := c.binCount as real;
    MulNonneg(i as real, ps);
    MulNonneg(k - 1.0 - i as real, ps);
    assert PinX(c, row, i) - (-BoardWidth(c) / 2.0 + ps / 2.0) == i as real * ps + RowOffset(c, row);
    assert (BoardWidth(c) / 2.0 - ps / 2.0) - PinX(c, row, i) == (k - 1.0 - i as real) * ps + RowOffset(c, row);
  }

  /** A pin inside the side walls and between the bottom and the top pin row. */
  predicate PinOnBoard(c: Config, p: Vec) {
    && -BoardWidth(c) / 2.0 + c.pinSpacing / 2.0 <= p.x <= BoardWidth(c) / 2.0 - c.pinSpacing / 2.0
    && PinY(c, c.rows - 1) <= p.y <= PinTopY(c)
  }

  /** Every pin of the first r rows lies inside the side walls, between the
      height of the bottom row and the top pin row. */
  lemma {:induction false} PinsInsideBoard(c: Config, r: nat)
    requires Valid(c) && r <= c.rows
    ensures forall j | 0 <= j < |PinsBefore(c, r)| :: PinOnBoard(c, PinsBefore(c, r)[j])
  {
    if r > 0 {
      PinsInsideBoard(c, r - 1);
      var row := r - 1;
      var before := PinsBefore(c, row);
      var pins := RowPins(c, row);
      MulNonneg((c.rows - 1 - row) as real, c.pinSpacing);
      MulNonneg(row as real, c.pinSpacing);
      forall i | 0 <= i < |pins|
        ensures PinOnBoard(c, pins[i])
      {
        RowInsideBoard(c, row, i);
      }
      assert PinsBefore(c, r) == before + pins;
      forall j | 0 <= j < |before + pins|
        ensures PinOnBoard(c, (before + pins)[j])
      {
        if j >= |before| {
          assert (before + pins)[j] == pins[j - |before|];
        }
      }
    }
  }

  // ---------------------------------------------------------------------------
  // Bins

  /** The x of bin i's centre. */
  function BinCenter(c: Config, i: int): real {
    i as real * c.pinSpacing - BoardWidth(c) / 2.0 + c.pinSpacing / 2.0
  }

  /** The bin a ball at horizontal position x falls into (not necessarily in range). */
  function BinIndexOf(c: Config, x: real): int
    requires c.pinSpacing > 0.0
  {
    ((x + BoardWidth(c) / 2.0) / c.pinSpacing).Floor
  }

  /** The bins as createBoard builds them: one per slot, centred, on the floor, empty. */
  function BinLayout(c: Config): (bins: seq<Bin>)
    ensures |bins| == c.binCount
    ensures forall k | 0 <= k < |bins| :: bins[k].ballCount == 0
  {
    seq(c.binCount, k => Bin(Vec(BinCenter(c, k), BinFloorY(c)), 0))
  }

  /** The bins partition the board: bin i holds exactly the x in
      [i * pinSpacing - boardWidth/2, (i + 1) * pinSpacing - boardWidth/2). */
  lemma BinIndexIff(c: Config, x: real, i: int)
    requires c.pinSpacing > 0.0
    ensures BinIndexOf(c, x) == i <==>
      i as real * c.pinSpacing - BoardWidth(c) / 2.0 <= x < (i + 1) as real * c.pinSpacing - BoardWidth(c) / 2.0
  {
    var ps := c.pinSpacing;
    var u := x + BoardWidth(c) / 2.0;
    var r := u / ps;
    assert r * ps == u;
    assert i as real <= r <==> i as real * ps <= u by {
      assert (r - i as real) * ps == u - i as real * ps;
      SignScale(r - i as real, ps);
    }
    assert r < (i + 1) as real <==> u < (i + 1) as real * ps by {
      assert ((i + 1) as real - r) * ps == (i + 1) as real * ps - u;
      SignScale((i + 1) as real - r, ps);
    }
  }

  /** Applying the settling formula to a bin's centre gives that bin back. */
  lemma BinRoundTrip(c: Config, i: int)
    requires c.pinSpacing > 0.0
    ensures BinIndexOf(c, BinCenter(c, i)) == i
  {
    BinIndexIff(c, BinCenter(c, i), i);
  }

  /** Distinct bins have centres at least one pin spacing apart. */
  lemma BinCentersApart(c: Config, i: int, j: int)
    requires c.pinSpacing > 0.0 && i != j
    ensures BinCenter(c, i) - BinCenter(c, j) >= c.pinSpacing || BinCenter(c, j) - BinCenter(c, i) >= c.pinSpacing
  {
    assert BinCenter(c, i) - BinCenter(c, j) == (i - j) as real * c.pinSpacing;
    if i > j {
      MulNonneg((i - j - 1) as real, c.pinSpacing);
    } else {
      MulNonneg((j - i - 1) as real, c.pinSpacing);
    }
  }

  /** Every bin centre lies inside the side walls, ball radius included. */
  lemma BinCenterInsideWalls(c: Config, i: int)
    requires Valid(c) && 0 <= i < c.binCount
    ensures LeftLimit(c) <= BinCenter(c, i) <= RightLimit(c)
  {
    var ps := c.pinSpacing;
    MulNonneg(i as real, ps);
    MulNonneg((c.binCount - 1 - i) as real, ps);
    assert BoardWidth(c) / 2.0 - BinCenter(c, i) == (c.binCount - 1 - i) as real * ps + ps / 2.0;
  }
}
