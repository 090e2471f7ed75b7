/** Keeping the number of balls bounded: which ball addBall evicts before it
    drops a new one, how the bin counters follow, and how a bin is re-stacked. */
module Population {
  import opened BoardConfig
  import opened Layout
  import opened Occupancy

  datatype Option<T> = None | Some(value: T)

  function Abs(x: real): real {
    if x < 0.0 then -x else x
  }

  /** Ball b counts as resting in bin k: settled, and within the matching tolerance of the bin's x. */
  predicate InBin(bins: seq<Bin>, k: int, b: Ball)
    requires 0 <= k < |bins|
  {
    b.settled && Abs(b.pos.x - bins[k].pos.x) < BinMatchTolerance
  }

  /** The list without its element at index i (`splice(i, 1)`). */
  function Remove(s: seq<Ball>, i: nat): (r: seq<Ball>)
    requires i < |s|
    ensures |r| == |s| - 1
    ensures forall j | 0 <= j < i :: r[j] == s[j]
    ensures forall j | i <= j < |r| :: r[j] == s[j + 1]
  {
    s[..i] + s[i + 1..]
  }

  // ---------------------------------------------------------------------------
  // The first falling ball

  function FirstUnsettledFrom(balls: seq<Ball>, i: nat): (r: Option<nat>)
    ensures r.Some? ==> i <= r.value < |balls| && !balls[r.value].settled
    decreases |balls| - i
  {
    if i >= |balls| then None
    else if !balls[i].settled then Some(i)
    else FirstUnsettledFrom(balls, i + 1)
  }

  /** The index of the first ball, in list order, that has not settled. */
  function FirstUnsettled(balls: seq<Ball>): Option<nat> {
    FirstUnsettledFrom(balls, 0)
  }

  lemma {:induction false} FirstUnsettledFromIs(balls: seq<Ball>, i: nat)
    requires i <= |balls|
    ensures match FirstUnsettledFrom(balls, i)
            case Some(j) => i <= j < |balls| && !balls[j].settled && forall q | i <= q < j :: balls[q].settled
            case None => forall q | i <= q < |balls| :: balls[q].settled
    decreases |balls| - i
  {
    if i < |balls| && balls[i].settled {
      FirstUnsettledFromIs(balls, i + 1);
    }
  }

  /** FirstUnsettled finds the first falling ball, and finds none only when every ball has settled. */
  lemma FirstUnsettledIs(balls: seq<Ball>)
    ensures match FirstUnsettled(balls)
            case Some(j) => j < |balls| && !balls[j].settled && forall q | 0 <= q < j :: balls[q].settled
            case None => forall q | 0 <= q < |balls| :: balls[q].settled
  {
    FirstUnsettledFromIs(balls, 0);
  }

  /** When every ball from i on has settled, the scan from i finds none. */
  lemma {:induction false} AllSettledFrom(balls: seq<Ball>, i: nat)
    requires forall q | i <= q < |balls| :: balls[q].settled
    ensures FirstUnsettledFrom(balls, i) == None
    decreases |balls| - i
  {
    if i < |balls| {
      AllSettledFrom(balls, i + 1);
    }
  }

  /** The first-falling-ball scan of addBall's first eviction tier. */
  method FindFirstUnsettled(balls: seq<Ball>) returns (r: Option<nat>)
    ensures r == FirstUnsettled(balls)
  {
    var i := 0;
    while i < |balls|
      invariant 0 <= i <= |balls|
      invariant FirstUnsettledFrom(balls, i) == FirstUnsettled(balls)
    {
      if !balls[i].settled {
        return Some(i);
      }
      i := i + 1;
    }
    return None;
  }

  /** `state.balls.filter(ball => ball.settled).length`. */
  method CountSettled(balls: seq<Ball>) returns (n: nat)
    ensures n == SettledCount(balls)
  {
    n := 0;
    var i := 0;
    while i < |balls|
      invariant 0 <= i <= |balls|
      invariant n == SettledCount(balls[..i])
    {
      assert balls[..i + 1][..i] == balls[..i];
      if balls[i].settled {
        n := n + 1;
      }
      i := i + 1;
    }
    assert balls[..|balls|] == balls;
  }

  /** When every ball has settled, the settled count is the number of balls. */
  lemma {:induction false} AllSettledCount(balls: seq<Ball>)
    requires forall q | 0 <= q < |balls| :: balls[q].settled
    ensures SettledCount(balls) == |balls|
  {
    if balls != [] {
      AllSettledCount(balls[..|balls| - 1]);
    }
  }

  // ---------------------------------------------------------------------------
  // The oldest ball of a bin: the lowest one, the first in list order among equals

  function OldestFrom(bins: seq<Bin>, k: int, balls: seq<Ball>, i: nat, best: Option<nat>): (r: Option<nat>)
    requires 0 <= k < |bins|
    requires best.Some? ==> best.value < |balls| && InBin(bins, k, balls[best.value])
    ensures r.Some? ==> r.value < |balls| && InBin(bins, k, balls[r.value])
    decreases |balls| - i
  {
    if i >= |balls| then best
    else if InBin(bins, k, balls[i]) && (best.None? || balls[i].pos.y < balls[best.value].pos.y) then
      OldestFrom(bins, k, balls, i + 1, Some(i))
    else
      OldestFrom(bins, k, balls, i + 1, best)
  }

  /** The filter-then-reduce of addBall: among the balls resting in bin k, the one
      with the smallest y, keeping the earlier one on ties. */
  function Oldest(bins: seq<Bin>, k: int, balls: seq<Ball>): Option<nat>
    requires 0 <= k < |bins|
  {
    OldestFrom(bins, k, balls, 0, None)
  }

  /** r is the oldest ball of bin k among the first n balls. */
  predicate IsOldest(bins: seq<Bin>, k: int, balls: seq<Ball>, n: nat, r: Option<nat>)
    requires 0 <= k < |bins| && n <= |balls|
  {
    match r
    case None => forall q | 0 <= q < n :: !InBin(bins, k, balls[q])
    case Some(p) =>
      && p < n
      && InBin(bins, k, balls[p])
      && (forall q | 0 <= q < n && InBin(bins, k, balls[q]) :: balls[p].pos.y <= balls[q].pos.y)
      && (forall q | 0 <= q < p && InBin(bins, k, balls[q]) :: balls[p].pos.y < balls[q].pos.y)
  }

  lemma {:induction false} OldestFromIs(bins: seq<Bin>, k: int, balls: seq<Ball>, i: nat, best: Option<nat>)
    requires 0 <= k < |bins| && i <= |balls|
    requires IsOldest(bins, k, balls, i, best)
    ensures IsOldest(bins, k, balls, |balls|, OldestFrom(bins, k, balls, i, best))
    decreases |balls| - i
  {
    if i < |balls| {
      if InBin(bins, k, balls[i]) && (best.None? || balls[i].pos.y < balls[best.value].pos.y) {
        OldestFromIs(bins, k, balls, i + 1, Some(i));
      } else {
        OldestFromIs(bins, k, balls, i + 1, best);
      }
    }
  }

  /** Oldest finds the lowest ball of the bin, the first in list order among
      equally low ones, and finds none only when the bin holds no ball. */
  lemma OldestIsLowest(bins: seq<Bin>, k: int, balls: seq<Ball>)
    requires 0 <= k < |bins|
    ensures IsOldest(bins, k, balls, |balls|, Oldest(bins, k, balls))
  {
    OldestFromIs(bins, k, balls, 0, None);
  }

  /** The filter-then-reduce loop. */
  method FindOldest(bins: seq<Bin>, k: int, balls: seq<Ball>) returns (r: Option<nat>)
    requires 0 <= k < |bins|
    ensures r == Oldest(bins, k, balls)
  {
    r := None;
    var i := 0;
    while i < |balls|
      invariant 0 <= i <= |balls|
      invariant r.Some? ==> r.value < |balls| && InBin(bins, k, balls[r.value])
      invariant OldestFrom(bins, k, balls, i, r) == Oldest(bins, k, balls)
    {
      if InBin(bins, k, balls[i]) && (r.None? || balls[i].pos.y < balls[r.value].pos.y) {
        r := Some(i);
      }
      i := i + 1;
    }
  }

  // ---------------------------------------------------------------------------
  // The order in which the bins are searched, furthest from the middle first

  function Middle(n: nat): nat { n / 2 }

  function Dist(n: nat, k: int): nat {
    if k >= Middle(n) then k - Middle(n) else Middle(n) - k
  }

  /** The bins pushed for one distance d: the left one if it exists, then the right
      one if it exists and differs from the left one. */
  function Pair(n: nat, d: nat): (r: seq<int>)
    requires n >= 1
    ensures forall i | 0 <= i < |r| :: 0 <= r[i] < n
  {
    var left := Middle(n) - d;
    var right := Middle(n) + d;
    (if left >= 0 then [left] else [])
      + (if right < n && right != left then [right] else [])
  }

  /** The bins pushed for the distances above d, from the largest distance down. */
  function Above(n: nat, d: int): (r: seq<int>)
    requires n >= 1 && -1 <= d <= Middle(n)
    ensures forall i | 0 <= i < |r| :: 0 <= r[i] < n
    decreases Middle(n) - d
  {
    if d == Middle(n) then [] else Above(n, d + 1) + Pair(n, d + 1)
  }

  /** The search order of addBall's last eviction tier. */
  function SearchOrder(n: nat): (r: seq<int>)
    requires n >= 1
    ensures forall i | 0 <= i < |r| :: 0 <= r[i] < n
  {
    Above(n, -1)
  }

  predicate Distinct(s: seq<int>) {
    forall i, j | 0 <= i < j < |s| :: s[i] != s[j]
  }

  predicate FurthestFirst(n: nat, s: seq<int>) {
    forall i, j | 0 <= i < j < |s| :: Dist(n, s[i]) >= Dist(n, s[j])
  }

  /** No bin is further from the middle than n / 2. */
  lemma DistBound(n: nat, k: int)
    requires 0 <= k < n
    ensures Dist(n, k) <= Middle(n)
  {
  }

  lemma PairFacts(n: nat, d: nat)
    requires n >= 1
    ensures forall k :: k in Pair(n, d) <==> 0 <= k < n && Dist(n, k) == d
    ensures Distinct(Pair(n, d))
    ensures forall i | 0 <= i < |Pair(n, d)| :: Dist(n, Pair(n, d)[i]) == d
  {
  }

  /** Appending a band of bins all at distance e to a list whose bins are all further out. */
  lemma AppendBand(n: nat, a: seq<int>, p: seq<int>, e: int)
    requires Distinct(a) && FurthestFirst(n, a) && forall i | 0 <= i < |a| :: Dist(n, a[i]) > e
    requires Distinct(p) && forall i | 0 <= i < |p| :: Dist(n, p[i]) == e
    ensures Distinct(a + p) && FurthestFirst(n, a + p)
    ensures forall i | 0 <= i < |a + p| :: Dist(n, (a + p)[i]) >= e
  {
    forall i, j | 0 <= i < j < |a + p|
      ensures (a + p)[i] != (a + p)[j] && Dist(n, (a + p)[i]) >= Dist(n, (a + p)[j])
    {
      if j < |a| {
        assert (a + p)[i] == a[i] && (a + p)[j] == a[j];
      } else if i >= |a| {
        assert (a + p)[i] == p[i - |a|] && (a + p)[j] == p[j - |a|];
      } else {
        assert (a + p)[i] == a[i] && (a + p)[j] == p[j - |a|];
      }
    }
    forall i | 0 <= i < |a + p|
      ensures Dist(n, (a + p)[i]) >= e
    {
      if i >= |a| {
        assert (a + p)[i] == p[i - |a|];
      } else {
        assert (a + p)[i] == a[i];
      }
    }
  }

  lemma {:induction false} AboveFacts(n: nat, d: int)
    requires n >= 1 && -1 <= d <= Middle(n)
    ensures forall k :: k in Above(n, d) <==> 0 <= k < n && Dist(n, k) > d
    ensures Distinct(Above(n, d))
    ensures FurthestFirst(n, Above(n, d))
    ensures forall i | 0 <= i < |Above(n, d)| :: Dist(n, Above(n, d)[i]) > d
    decreases Middle(n) - d
  {
    if d == Middle(n) {
      forall k | 0 <= k < n
        ensures Dist(n, k) <= d
      {
        DistBound(n, k);
      }
    } else {
      var a := Above(n, d + 1);
      var p := Pair(n, d + 1);
      assert Above(n, d) == a + p;
      assert forall k :: k in a <==> 0 <= k < n && Dist(n, k) > d + 1 by {
        AboveFacts(n, d + 1);
      }
      assert forall k :: k in p <==> 0 <= k < n && Dist(n, k) == d + 1 by {
        PairFacts(n, d + 1);
      }
      assert forall k :: k in a + p <==> k in a || k in p;
      assert Distinct(a + p) && FurthestFirst(n, a + p) && forall i | 0 <= i < |a + p| :: Dist(n, (a + p)[i]) >= d + 1 by {
        AboveFacts(n, d + 1);
        PairFacts(n, d + 1);
        AppendBand(n, a, p, d + 1);
      }
    }
  }

  /** The search order lists every bin exactly once, furthest from the middle bin first. */
  lemma SearchOrderIsPermutation(n: nat)
    requires n >= 1
    ensures forall k :: k in SearchOrder(n) <==> 0 <= k < n
    ensures Distinct(SearchOrder(n))
    ensures FurthestFirst(n, SearchOrder(n))
  {
    AboveFacts(n, -1);
  }

  /** The search-order loop of addBall: from the largest distance down to 0, push
      the left bin if it exists, then the right bin if it exists and is another one. */
  method BuildSearchOrder(n: nat) returns (order: seq<int>)
    requires n >= 1
    ensures order == SearchOrder(n)
  {
    var middle := n / 2;
    order := [];
    var distance: int := n / 2;
    while distance >= 0
      invariant -1 <= distance <= middle
      invariant order == Above(n, distance)
    {
      var left := middle - distance;
      var right := middle + distance;
      var pushed := order;
      if left >= 0 {
        order := order + [left];
      }
      if right < n && right != left {
        order := order + [right];
      }
      assert order == pushed + Pair(n, distance);
      distance := distance - 1;
    }
  }

  // ---------------------------------------------------------------------------
  // Re-stacking a bin after an eviction

  /** Ball q comes before ball p in the sort by height (a stable sort keeps list order on ties). */
  predicate Precedes(balls: seq<Ball>, q: int, p: int)
    requires 0 <= q < |balls| && 0 <= p < |balls|
  {
    balls[q].pos.y < balls[p].pos.y || (balls[q].pos.y == balls[p].pos.y && q < p)
  }

  /** Balls of bin k among the first m that come before ball p. */
  function RankBelow(bins: seq<Bin>, k: int, balls: seq<Ball>, p: nat, m: nat): nat
    requires 0 <= k < |bins| && p < |balls| && m <= |balls|
  {
    if m == 0 then 0
    else RankBelow(bins, k, balls, p, m - 1) + (if InBin(bins, k, balls[m - 1]) && Precedes(balls, m - 1, p) then 1 else 0)
  }

  /** Ball p's position in bin k sorted by height: the number of the bin's balls before it. */
  function Rank(bins: seq<Bin>, k: int, balls: seq<Ball>, p: nat): nat
    requires 0 <= k < |bins| && p < |balls|
  {
    RankBelow(bins, k, balls, p, |balls|)
  }

  /** Balls of bin k among the first m. */
  function InBinCount(bins: seq<Bin>, k: int, balls: seq<Ball>, m: nat): nat
    requires 0 <= k < |bins| && m <= |balls|
  {
    if m == 0 then 0 else InBinCount(bins, k, balls, m - 1) + (if InBin(bins, k, balls[m - 1]) then 1 else 0)
  }

  /** The height of the ball of the given rank in a stack from base, step apart. */
  function Level(base: real, step: real, rank: int): real {
    base + rank as real * step
  }

  /** The balls of bin k, sorted by height, are put at heights base, base + step, ...:
      ball p goes to the height of its rank; every other ball stays as it is. */
  function Restack(c: Config, bins: seq<Bin>, k: int, balls: seq<Ball>): (r: seq<Ball>)
    requires 0 <= k < |bins|
    ensures |r| == |balls|
  {
    seq(|balls|, p requires 0 <= p < |balls| =>
      if InBin(bins, k, balls[p]) then
        balls[p].(pos := balls[p].pos.(y := Level(RestackBaseY(c), StackStep(c), Rank(bins, k, balls, p))))
      else balls[p])
  }

  lemma {:induction false} RankBelowMonotone(bins: seq<Bin>, k: int, balls: seq<Ball>, q: nat, p: nat, m: nat)
    requires 0 <= k < |bins| && q < |balls| && p < |balls| && m <= |balls|
    requires InBin(bins, k, balls[q]) && Precedes(balls, q, p)
    ensures RankBelow(bins, k, balls, q, m) + (if q < m then 1 else 0) <= RankBelow(bins, k, balls, p, m)
  {
    if m > 0 {
      RankBelowMonotone(bins, k, balls, q, p, m - 1);
      var r := m - 1;
      if InBin(bins, k, balls[r]) && Precedes(balls, r, q) {
        assert Precedes(balls, r, p);
      }
    }
  }

  lemma {:induction false} RankBelowBound(bins: seq<Bin>, k: int, balls: seq<Ball>, p: nat, m: nat)
    requires 0 <= k < |bins| && p < |balls| && m <= |balls|
    ensures RankBelow(bins, k, balls, p, m) + (if p < m && InBin(bins, k, balls[p]) then 1 else 0) <= InBinCount(bins, k, balls, m)
  {
    if m > 0 {
      RankBelowBound(bins, k, balls, p, m - 1);
    }
  }

  /** Ranks are positions: a ball of the bin ranks below the bin's size, and a ball
      earlier in the height order ranks strictly lower. */
  lemma RankIsPosition(bins: seq<Bin>, k: int, balls: seq<Ball>, p: nat, q: nat)
    requires 0 <= k < |bins| && p < |balls| && q < |balls|
    requires InBin(bins, k, balls[p]) && InBin(bins, k, balls[q])
    ensures Rank(bins, k, balls, p) < InBinCount(bins, k, balls, |balls|)
    ensures Precedes(balls, q, p) ==> Rank(bins, k, balls, q) < Rank(bins, k, balls, p)
  {
    RankBelowBound(bins, k, balls, p, |balls|);
    if Precedes(balls, q, p) {
      RankBelowMonotone(bins, k, balls, q, p, |balls|);
    }
  }

  /** The height re-stacking gives ball p of bin k: the base plus its rank times the step. */
  lemma RestackHeight(c: Config, bins: seq<Bin>, k: int, balls: seq<Ball>, p: nat)
    requires 0 <= k < |bins| && p < |balls| && InBin(bins, k, balls[p])
    ensures Restack(c, bins, k, balls)[p].pos.y == Level(RestackBaseY(c), StackStep(c), Rank(bins, k, balls, p))
  {
  }

  /** Re-stacking keeps the bin's balls in their order by height (list order on ties)
      and puts no two at the same height. */
  lemma RestackKeepsOrder(c: Config, bins: seq<Bin>, k: int, balls: seq<Ball>, p: nat, q: nat)
    requires 0 <= k < |bins| && p < |balls| && q < |balls| && p != q
    requires StackStep(c) > 0.0
    requires InBin(bins, k, balls[p]) && InBin(bins, k, balls[q])
    ensures Restack(c, bins, k, balls)[q].pos.y < Restack(c, bins, k, balls)[p].pos.y <==> Precedes(balls, q, p)
  {
    var rp := Rank(bins, k, balls, p);
    var rq := Rank(bins, k, balls, q);
    assert rq < rp <==> Precedes(balls, q, p) by {
      RankIsPosition(bins, k, balls, p, q);
      RankIsPosition(bins, k, balls, q, p);
      assert Precedes(balls, q, p) || Precedes(balls, p, q);
    }
    RankIsPosition(bins, k, balls, p, q);
    RestackHeight(c, bins, k, balls, p);
    RestackHeight(c, bins, k, balls, q);
    Heights(RestackBaseY(c), StackStep(c), rp, rq, InBinCount(bins, k, balls, |balls|));
  }

  /** Re-stacking packs the bin's balls from its base: a bin of m balls reaches at most
      m - 1 steps up. */
  lemma RestackPacks(c: Config, bins: seq<Bin>, k: int, balls: seq<Ball>, p: nat)
    requires 0 <= k < |bins| && p < |balls|
    requires StackStep(c) > 0.0
    requires InBin(bins, k, balls[p])
    ensures RestackBaseY(c) <= Restack(c, bins, k, balls)[p].pos.y
    ensures Restack(c, bins, k, balls)[p].pos.y <= Level(RestackBaseY(c), StackStep(c), InBinCount(bins, k, balls, |balls|) - 1)
  {
    var rp := Rank(bins, k, balls, p);
    RankIsPosition(bins, k, balls, p, p);
    RestackHeight(c, bins, k, balls, p);
    Heights(RestackBaseY(c), StackStep(c), rp, rp, InBinCount(bins, k, balls, |balls|));
  }

  /** Heights base + rank * step: ordered as the ranks, from base up to the top rank's height. */
  lemma Heights(base: real, step: real, rp: int, rq: int, m: int)
    requires step > 0.0 && 0 <= rp < m
    ensures Level(base, step, rq) < Level(base, step, rp) <==> rq < rp
    ensures base <= Level(base, step, rp) <= Level(base, step, m - 1)
  {
    Scale(rq, rp, step);
    Scale(0, rp, step);
    Scale(rp, m - 1, step);
  }

  /** Multiplying by a positive step keeps the order of integers, strict and not. */
  lemma Scale(a: int, b: int, step: real)
    requires step > 0.0
    ensures a < b <==> a as real * step < b as real * step
    ensures a <= b <==> a as real * step <= b as real * step
  {
    assert b as real * step - a as real * step == (b - a) as real * step;
    if a < b {
      MulNonneg((b - a - 1) as real, step);
    } else {
      MulNonneg((a - b) as real, step);
    }
  }

  /** The re-stacking loop: each of the bin's balls is given the height of its rank. */
  method RestackBin(c: Config, bins: seq<Bin>, k: int, balls: seq<Ball>) returns (r: seq<Ball>)
    requires 0 <= k < |bins|
    ensures r == Restack(c, bins, k, balls)
  {
    r := balls;
    var p := 0;
    while p < |balls|
      invariant 0 <= p <= |balls| && |r| == |balls|
      invariant forall i | 0 <= i < p :: r[i] == Restack(c, bins, k, balls)[i]
      invariant forall i | p <= i < |balls| :: r[i] == balls[i]
    {
      if InBin(bins, k, balls[p]) {
        var rank := 0;
        var q := 0;
        while q < |balls|
          invariant 0 <= q <= |balls|
          invariant rank == RankBelow(bins, k, balls, p, q)
        {
          if InBin(bins, k, balls[q]) && Precedes(balls, q, p) {
            rank := rank + 1;
          }
          q := q + 1;
        }
        r := r[p := balls[p].(pos := balls[p].pos.(y := Level(RestackBaseY(c), StackStep(c), rank)))];
      }
      p := p + 1;
    }
  }

  // ---------------------------------------------------------------------------
  // Eviction

  /** What addBall removes before dropping a new ball. */
  datatype Eviction =
    | Keep
    | DropFalling(index: nat)
    | DropSettled(index: nat, bin: nat, restack: bool)

  /** The second tier: the oldest ball of the left edge bin, else of the right edge bin. */
  function EdgeChoice(c: Config, bins: seq<Bin>, balls: seq<Ball>): Option<(nat, nat)>
    requires |bins| == c.binCount >= 1
  {
    match Oldest(bins, 0, balls)
    case Some(p) => Some((p, 0))
    case None =>
      match Oldest(bins, c.binCount - 1, balls)
      case Some(p) => Some((p, c.binCount - 1))
      case None => None
  }

  /** The third tier: the oldest ball of the first bin in `order`, from position j on, that holds one. */
  function SearchChoice(bins: seq<Bin>, balls: seq<Ball>, order: seq<int>, j: nat): (r: Option<(nat, nat)>)
    requires forall i | 0 <= i < |order| :: 0 <= order[i] < |bins|
    ensures r.Some? ==> r.value.0 < |balls| && r.value.1 < |bins| && InBin(bins, r.value.1, balls[r.value.0])
    decreases |order| - j
  {
    if j >= |order| then None
    else match Oldest(bins, order[j], balls)
      case Some(p) => Some((p, order[j] as nat))
      case None => SearchChoice(bins, balls, order, j + 1)
  }

  /** The edge-bin loop of the second tier. */
  method FindEdgeChoice(c: Config, bins: seq<Bin>, balls: seq<Ball>) returns (r: Option<(nat, nat)>)
    requires |bins| == c.binCount >= 1
    ensures r == EdgeChoice(c, bins, balls)
  {
    var edgeBins: seq<nat> := [0, c.binCount - 1];
    var e := 0;
    while e < |edgeBins|
      invariant 0 <= e <= |edgeBins|
      invariant e >= 1 ==> Oldest(bins, 0, balls).None?
      invariant e >= 2 ==> Oldest(bins, c.binCount - 1, balls).None?
    {
      var oldest := FindOldest(bins, edgeBins[e], balls);
      if oldest.Some? {
        return Some((oldest.value, edgeBins[e]));
      }
      e := e + 1;
    }
    return None;
  }

  /** The search loop of the third tier. */
  method FindSearchChoice(bins: seq<Bin>, balls: seq<Ball>, order: seq<int>) returns (r: Option<(nat, nat)>)
    requires forall i | 0 <= i < |order| :: 0 <= order[i] < |bins|
    ensures r == SearchChoice(bins, balls, order, 0)
  {
    var j := 0;
    while j < |order|
      invariant 0 <= j <= |order|
      invariant SearchChoice(bins, balls, order, j) == SearchChoice(bins, balls, order, 0)
    {
      var oldest := FindOldest(bins, order[j], balls);
      if oldest.Some? {
        return Some((oldest.value, order[j] as nat));
      }
      j := j + 1;
    }
    return None;
  }

  /** The third-tier search picks the first bin in `order`, from position j on, that
      holds a matched ball, and the oldest ball of that bin; it finds none only when
      no bin listed from j on holds one. */
  lemma {:induction false} SearchChoiceIs(bins: seq<Bin>, balls: seq<Ball>, order: seq<int>, j: nat)
    requires forall i | 0 <= i < |order| :: 0 <= order[i] < |bins|
    requires j <= |order|
    ensures match SearchChoice(bins, balls, order, j)
            case Some(r) =>
              exists t | j <= t < |order| ::
                && order[t] == r.1
                && IsOldest(bins, r.1, balls, |balls|, Some(r.0))
                && forall u | j <= u < t :: IsOldest(bins, order[u], balls, |balls|, None)
            case None => forall u | j <= u < |order| :: IsOldest(bins, order[u], balls, |balls|, None)
    decreases |order| - j
  {
    if j < |order| {
      OldestIsLowest(bins, order[j], balls);
      if Oldest(bins, order[j], balls).None? {
        SearchChoiceIs(bins, balls, order, j + 1);
      }
    }
  }

  /** The eviction addBall makes. Nothing is removed below both caps. At a cap the
      first falling ball goes; failing that, and if the settled cap is reached, the
      oldest ball of an edge bin; failing that the oldest ball of the first bin in
      the search order, after which that bin is re-stacked. */
  function ChooseEviction(c: Config, bins: seq<Bin>, balls: seq<Ball>): (e: Eviction)
    requires |bins| == c.binCount >= 1
    ensures e.DropFalling? ==> e.index < |balls| && !balls[e.index].settled
    ensures e.DropSettled? ==> e.index < |balls| && e.bin < |bins| && InBin(bins, e.bin, balls[e.index])
  {
    var settled := SettledCount(balls);
    if |balls| < c.maxBalls && settled < c.maxSettledBalls then Keep
    else
      match FirstUnsettled(balls)
      case Some(i) => DropFalling(i)
      case None =>
        if settled < c.maxSettledBalls then Keep
        else match EdgeChoice(c, bins, balls)
          case Some(e) => DropSettled(e.0, e.1, false)
          case None =>
            if settled == 0 then Keep
            else match SearchChoice(bins, balls, SearchOrder(c.binCount), 0)
              case Some(e) => DropSettled(e.0, e.1, true)
              case None => Keep
  }

  /** The guarded decrement of a bin counter. */
  function Decrement(bins: seq<Bin>, k: nat): (r: seq<Bin>)
    requires k < |bins|
    ensures |r| == |bins|
  {
    if bins[k].ballCount > 0 then bins[k := bins[k].(ballCount := bins[k].ballCount - 1)] else bins
  }

  /** Carrying out an eviction on the balls and the bin counters. */
  function Evict(c: Config, bins: seq<Bin>, balls: seq<Ball>, e: Eviction): (r: (seq<Ball>, seq<Bin>))
    requires e.DropFalling? ==> e.index < |balls|
    requires e.DropSettled? ==> e.index < |balls| && e.bin < |bins|
    ensures |r.1| == |bins|
  {
    match e
    case Keep => (balls, bins)
    case DropFalling(i) => (Remove(balls, i), bins)
    case DropSettled(p, k, restack) =>
      var left := Remove(balls, p);
      var counted := Decrement(bins, k);
      (if restack then Restack(c, counted, k, left) else left, counted)
  }

  /** The ball addBall drops: at the funnel, x jittered by (random - 0.5) * 0.2, at rest, falling. */
  function NewBall(c: Config, random: real): (b: Ball)
    requires 0.0 <= random < 1.0
    ensures -0.1 <= b.pos.x < 0.1 && b.pos.y == FunnelY(c)
    ensures b.vel == Zero && !b.settled
  {
    Ball(Vec((random - 0.5) * 0.2, FunnelY(c)), Zero, false)
  }

  /** addBall on the balls and the bins: evict, then append the new ball. */
  function AddBallResult(c: Config, bins: seq<Bin>, balls: seq<Ball>, random: real): (seq<Ball>, seq<Bin>)
    requires |bins| == c.binCount >= 1 && 0.0 <= random < 1.0
  {
    var evicted := Evict(c, bins, balls, ChooseEviction(c, bins, balls));
    (evicted.0 + [NewBall(c, random)], evicted.1)
  }

  // ---------------------------------------------------------------------------
  // Properties of addBall

  /** At most one ball goes, the new falling ball comes last, and below both caps
      nothing goes at all. The balls kept before the new one are the old balls with
      the evicted one spliced out; a re-stack moves only balls of the evicted bin,
      and those only vertically. */
  lemma AddBallShape(c: Config, bins: seq<Bin>, balls: seq<Ball>, random: real)
    requires |bins| == c.binCount >= 1 && 0.0 <= random < 1.0
    ensures var r := AddBallResult(c, bins, balls, random);
            && |r.0| == |balls| + (if ChooseEviction(c, bins, balls).Keep? then 1 else 0)
            && r.0[|r.0| - 1] == NewBall(c, random)
            && (|balls| < c.maxBalls && SettledCount(balls) < c.maxSettledBalls ==> r == (balls + [NewBall(c, random)], bins))
    ensures var r := AddBallResult(c, bins, balls, random);
            var kept := r.0[..|r.0| - 1];
            match ChooseEviction(c, bins, balls)
            case Keep => kept == balls && r.1 == bins
            case DropFalling(i) => kept == Remove(balls, i) && r.1 == bins
            case DropSettled(p, k, restack) =>
              && r.1 == Decrement(bins, k)
              && (!restack ==> kept == Remove(balls, p))
              && |kept| == |balls| - 1
              && (forall j | 0 <= j < |kept| ::
                    && kept[j].pos.x == Remove(balls, p)[j].pos.x
                    && kept[j].vel == Remove(balls, p)[j].vel
                    && kept[j].settled == Remove(balls, p)[j].settled)
              && (forall j | 0 <= j < |kept| && !InBin(bins, k, Remove(balls, p)[j]) :: kept[j] == Remove(balls, p)[j])
  {
  }

  /** At a cap, when some ball is still falling, the first falling ball in list
      order is the one removed, and no bin counter changes. */
  lemma EvictsFirstFalling(c: Config, bins: seq<Bin>, balls: seq<Ball>, random: real, i: nat)
    requires |bins| == c.binCount >= 1 && 0.0 <= random < 1.0
    requires |balls| >= c.maxBalls || SettledCount(balls) >= c.maxSettledBalls
    requires i < |balls| && !balls[i].settled && forall q | 0 <= q < i :: balls[q].settled
    ensures AddBallResult(c, bins, balls, random) == (balls[..i] + balls[i + 1..] + [NewBall(c, random)], bins)
  {
    FirstUnsettledIs(balls);
    match FirstUnsettled(balls)
    case Some(j) =>
      if j < i {
      } else if i < j {
      }
    case None =>
  }

  /** When no ball is falling and the settled cap is reached, the oldest ball of
      the left edge bin goes, or failing that the oldest ball of the right edge bin,
      without re-stacking. */
  lemma EdgeBinsFirst(c: Config, bins: seq<Bin>, balls: seq<Ball>)
    requires |bins| == c.binCount >= 1
    requires FirstUnsettled(balls) == None
    requires SettledCount(balls) >= c.maxSettledBalls
    ensures Oldest(bins, 0, balls).Some? ==>
              ChooseEviction(c, bins, balls) == DropSettled(Oldest(bins, 0, balls).value, 0, false)
    ensures Oldest(bins, 0, balls).None? && Oldest(bins, c.binCount - 1, balls).Some? ==>
              ChooseEviction(c, bins, balls) == DropSettled(Oldest(bins, c.binCount - 1, balls).value, c.binCount - 1, false)
  {
  }

  /** Under the invariant, a settled ball matched to bin k sits exactly on bin k's centre,
      and a settled ball on bin k's centre is matched to bin k. */
  lemma InBinIffAtCenter(c: Config, bins: seq<Bin>, b: Ball, k: nat)
    requires Valid(c) && BinsLaidOut(c, bins) && k < |bins| && AtRest(c, b)
    ensures InBin(bins, k, b) <==> b.settled && b.pos.x == BinCenter(c, k)
  {
    if b.settled && InBin(bins, k, b) {
      var j := BinIndexOf(c, b.pos.x);
      if j != k {
        BinCentersApart(c, j, k);
      }
    }
  }

  /** Under the invariant the search of the third tier always finds a ball when one
      has settled: every settled ball rests in some bin, and every bin is searched. */
  lemma {:induction false} SearchFinds(c: Config, bins: seq<Bin>, balls: seq<Ball>, order: seq<int>, j: nat, p: nat)
    requires Consistent(c, bins, balls)
    requires forall i | 0 <= i < |order| :: 0 <= order[i] < |bins|
    requires p < |balls| && balls[p].settled
    requires j <= |order| && BinIndexOf(c, balls[p].pos.x) in order[j..]
    ensures SearchChoice(bins, balls, order, j).Some?
    decreases |order| - j
  {
    var k := order[j];
    if Oldest(bins, k, balls).None? {
      OldestIsLowest(bins, k, balls);
      if BinIndexOf(c, balls[p].pos.x) == k {
        InBinIffAtCenter(c, bins, balls[p], k);
        assert false;
      }
      assert order[j..] == [k] + order[j + 1..];
      SearchFinds(c, bins, balls, order, j + 1, p);
    }
  }

  /** When every ball has settled and the settled cap is reached, some settled ball is
      evicted, as long as there is a ball at all. */
  lemma SettledEvictionFound(c: Config, bins: seq<Bin>, balls: seq<Ball>)
    requires Consistent(c, bins, balls) && |balls| > 0
    requires forall q | 0 <= q < |balls| :: balls[q].settled
    requires SettledCount(balls) >= c.maxSettledBalls
    ensures ChooseEviction(c, bins, balls).DropSettled?
  {
    assert FirstUnsettled(balls) == None by {
      AllSettledFrom(balls, 0);
    }
    assert SettledCount(balls) > 0 by {
      AllSettledCount(balls);
    }
    if EdgeChoice(c, bins, balls).None? {
      var order := SearchOrder(c.binCount);
      assert SearchChoice(bins, balls, order, 0).Some? by {
        SearchOrderIsPermutation(c.binCount);
        assert order[0..] == order;
        SearchFinds(c, bins, balls, order, 0, 0);
      }
    }
  }

  /** The counter guard never blocks: the bin a settled ball is evicted from counts it. */
  lemma EvictedBinCounted(c: Config, bins: seq<Bin>, balls: seq<Ball>)
    requires Consistent(c, bins, balls)
    ensures var e := ChooseEviction(c, bins, balls);
            e.DropSettled? ==>
              && balls[e.index].pos.x == BinCenter(c, e.bin)
              && bins[e.bin].ballCount >= 1
  {
    var e := ChooseEviction(c, bins, balls);
    if e.DropSettled? {
      var p := e.index;
      var k := e.bin;
      InBinIffAtCenter(c, bins, balls[p], k);
      CountAtRemove(balls, p, BinCenter(c, k));
    }
  }

  lemma CountAtRemove(s: seq<Ball>, i: nat, x: real)
    requires i < |s|
    ensures CountAt(s, x) == CountAt(Remove(s, i), x) + (if s[i].settled && s[i].pos.x == x then 1 else 0)
  {
    assert s == s[..i] + [s[i]] + s[i + 1..];
    CountAtConcat(s[..i] + [s[i]], s[i + 1..], x);
    CountAtConcat(s[..i], [s[i]], x);
    CountAtConcat(s[..i], s[i + 1..], x);
    assert [s[i]][..0] == [];
  }

  lemma {:induction false} CountAtSameShape(s: seq<Ball>, t: seq<Ball>, x: real)
    requires |s| == |t|
    requires forall p | 0 <= p < |s| :: s[p].settled == t[p].settled && s[p].pos.x == t[p].pos.x
    ensures CountAt(s, x) == CountAt(t, x)
  {
    if s != [] {
      CountAtSameShape(s[..|s| - 1], t[..|t| - 1], x);
    }
  }

  /** Removing a ball keeps the invariant once the counter of the bin it rested in
      (if any) is decremented. */
  lemma RemoveConsistent(c: Config, bins: seq<Bin>, balls: seq<Ball>, i: nat, after: seq<Bin>)
    requires Consistent(c, bins, balls) && i < |balls|
    requires !balls[i].settled ==> after == bins
    requires balls[i].settled ==>
      var k := BinIndexOf(c, balls[i].pos.x);
      0 <= k < |bins| && bins[k].ballCount >= 1 && after == bins[k := bins[k].(ballCount := bins[k].ballCount - 1)]
    ensures Consistent(c, after, Remove(balls, i))
  {
    var rest := Remove(balls, i);
    forall j | 0 <= j < |after|
      ensures after[j].ballCount == CountAt(rest, BinCenter(c, j))
    {
      CountAtRemove(balls, i, BinCenter(c, j));
      if balls[i].settled {
        var k := BinIndexOf(c, balls[i].pos.x);
        if j != k {
          BinRoundTrip(c, j);
        }
      }
    }
    forall q | 0 <= q < |rest|
      ensures AtRest(c, rest[q])
    {
      if q >= i {
        assert rest[q] == balls[q + 1];
      }
    }
  }

  /** Re-stacking keeps the invariant: only heights change. */
  lemma RestackConsistent(c: Config, bins: seq<Bin>, k: nat, balls: seq<Ball>)
    requires Consistent(c, bins, balls) && k < |bins|
    ensures Consistent(c, bins, Restack(c, bins, k, balls))
  {
    var r := Restack(c, bins, k, balls);
    forall j | 0 <= j < |bins|
      ensures bins[j].ballCount == CountAt(r, BinCenter(c, j))
    {
      CountAtSameShape(balls, r, BinCenter(c, j));
    }
  }

  /** addBall keeps the invariant: whichever ball goes, the counters still equal the
      number of settled balls in each bin, and the new ball is falling. */
  lemma AddBallConsistent(c: Config, bins: seq<Bin>, balls: seq<Ball>, random: real)
    requires Consistent(c, bins, balls) && 0.0 <= random < 1.0
    ensures var r := AddBallResult(c, bins, balls, random);
            Consistent(c, r.1, r.0)
  {
    var e := ChooseEviction(c, bins, balls);
    var evicted := Evict(c, bins, balls, e);
    assert Consistent(c, evicted.1, evicted.0) by {
      match e
      case Keep =>
      case DropFalling(i) =>
        RemoveConsistent(c, bins, balls, i, bins);
      case DropSettled(p, k, restack) =>
        EvictedBinCounted(c, bins, balls);
        BinRoundTrip(c, k);
        RemoveConsistent(c, bins, balls, p, Decrement(bins, k));
        if restack {
          RestackConsistent(c, Decrement(bins, k), k, Remove(balls, p));
        }
    }
    var nb := NewBall(c, random);
    forall j | 0 <= j < |evicted.1|
      ensures evicted.1[j].ballCount == CountAt(evicted.0 + [nb], BinCenter(c, j))
    {
      CountAtConcat(evicted.0, [nb], BinCenter(c, j));
      assert [nb][..0] == [];
    }
  }

  /** The population bound: when the ball cap is at least 1 and the settled cap is
      at most the ball cap, addBall never takes the number of balls above the ball cap. */
  lemma PopulationBound(c: Config, bins: seq<Bin>, balls: seq<Ball>, random: real)
    requires Consistent(c, bins, balls) && 0.0 <= random < 1.0
    requires 1 <= c.maxBalls && c.maxSettledBalls <= c.maxBalls && |balls| <= c.maxBalls
    ensures |AddBallResult(c, bins, balls, random).0| <= c.maxBalls
  {
    AddBallShape(c, bins, balls, random);
    var settled := SettledCount(balls);
    if !(|balls| < c.maxBalls && settled < c.maxSettledBalls) {
      FirstUnsettledIs(balls);
      if FirstUnsettled(balls).None? {
        AllSettledCount(balls);
        if settled >= c.maxSettledBalls && |balls| > 0 {
          SettledEvictionFound(c, bins, balls);
        }
      }
    }
  }
}
