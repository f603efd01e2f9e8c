/** Largest-remainder apportionment of a total over weighted lines. */
module Apportionment {
  import opened Collections

  function Sum(a: seq<int>): int {
    if a == [] then 0 else Sum(a[..|a| - 1]) + a[|a| - 1]
  }

  // ----- what the result is, without sorting anything

  function Floor(weights: seq<int>, total: int, i: nat): int
    requires i < |weights| && Sum(weights) > 0
  {
    weights[i] * total / Sum(weights)
  }

  function Floors(weights: seq<int>, total: int): seq<int>
    requires Sum(weights) > 0
  {
    seq(|weights|, i requires 0 <= i < |weights| => Floor(weights, total, i))
  }

  /** The fractional parts of the exact quotas, in units of one over the weight sum. */
  function Rests(weights: seq<int>, total: int): seq<int>
    requires Sum(weights) > 0
  {
    seq(|weights|, i requires 0 <= i < |weights| => weights[i] * total % Sum(weights))
  }

  function Leftover(weights: seq<int>, total: int): int
    requires Sum(weights) > 0
  {
    total - Sum(Floors(weights, total))
  }

  /** Line `i` is served before line `j`: larger remainder, then earlier line. */
  predicate Beats(rests: seq<int>, i: int, j: int)
    requires 0 <= i < |rests| && 0 <= j < |rests|
  {
    rests[i] > rests[j] || (rests[i] == rests[j] && i < j)
  }

  function Better(rests: seq<int>, i: int): set<int>
    requires 0 <= i < |rests|
  {
    set j | 0 <= j < |rests| && Beats(rests, j, i)
  }

  /** Line `i` gets one unit more than its floor: fewer than `leftover` lines beat it. */
  predicate Bumped(rests: seq<int>, leftover: int, i: int)
    requires 0 <= i < |rests|
  {
    |Better(rests, i)| < leftover
  }

  /** The part of one line: its floor, or one more. */
  function Part(weights: seq<int>, total: int, i: nat): int
    requires i < |weights| && Sum(weights) > 0
  {
    Floor(weights, total, i) + if Bumped(Rests(weights, total), Leftover(weights, total), i) then 1 else 0
  }

  function Apportioned(weights: seq<int>, total: int): (parts: seq<int>)
    ensures |parts| == |weights|
  {
    if Sum(weights) <= 0 || total <= 0 then seq(|weights|, i => 0)
    else seq(|weights|, i requires 0 <= i < |weights| => Part(weights, total, i))
  }

  // ----- the stable sort by descending remainder

  /** `order` with line `i` put after every line whose remainder is at least its own. */
  function InsertLine(rests: seq<int>, order: seq<int>, i: int): seq<int>
    requires 0 <= i < |rests| && forall p | 0 <= p < |order| :: 0 <= order[p] < |rests|
  {
    if order == [] || rests[order[|order| - 1]] >= rests[i] then order + [i]
    else InsertLine(rests, order[..|order| - 1], i) + [order[|order| - 1]]
  }

  ghost predicate SortedOrder(rests: seq<int>, order: seq<int>, n: nat) {
    && |order| == n <= |rests|
    && (forall p | 0 <= p < n :: 0 <= order[p] < n)
    && (forall p, q | 0 <= p < q < n :: Beats(rests, order[p], order[q]))
  }

  lemma InsertKeepsLines(rests: seq<int>, order: seq<int>, i: int)
    requires 0 <= i < |rests| && forall p | 0 <= p < |order| :: 0 <= order[p] < |rests|
    ensures |InsertLine(rests, order, i)| == |order| + 1
    ensures forall j | j in InsertLine(rests, order, i) :: j == i || j in order
  {
  }

  lemma InsertKeepsSorted(rests: seq<int>, order: seq<int>, i: int)
    requires 0 <= i < |rests| && forall p | 0 <= p < |order| :: 0 <= order[p] < i
    requires forall p, q | 0 <= p < q < |order| :: Beats(rests, order[p], order[q])
    ensures var r := InsertLine(rests, order, i);
      && |r| == |order| + 1
      && (forall p | 0 <= p < |r| :: 0 <= r[p] <= i)
      && (forall p, q | 0 <= p < q < |r| :: Beats(rests, r[p], r[q]))
  {
    InsertKeepsLines(rests, order, i);
    var r := InsertLine(rests, order, i);
    forall p | 0 <= p < |r| ensures 0 <= r[p] <= i {
      assert r[p] in r;
    }
    if order != [] && rests[order[|order| - 1]] < rests[i] {
      var init, last := order[..|order| - 1], order[|order| - 1];
      InsertKeepsSorted(rests, init, i);
      InsertKeepsLines(rests, init, i);
      var shorter := InsertLine(rests, init, i);
      forall p | 0 <= p < |shorter| ensures Beats(rests, shorter[p], last) {
        assert shorter[p] in shorter;
        if shorter[p] != i {
          var q :| 0 <= q < |init| && init[q] == shorter[p];
          assert Beats(rests, order[q], order[|order| - 1]);
        }
      }
    }
  }

  function StableOrder(rests: seq<int>, n: nat): (order: seq<int>)
    requires n <= |rests|
    ensures SortedOrder(rests, order, n)
  {
    if n == 0 then []
    else
      var order := StableOrder(rests, n - 1);
      InsertKeepsSorted(rests, order, n - 1);
      InsertLine(rests, order, n - 1)
  }

  ghost function Firsts(order: seq<int>, k: nat): set<int>
    requires k <= |order|
  {
    set p | 0 <= p < k :: order[p]
  }

  ghost function Below(n: nat): (r: set<int>)
    ensures |r| == n && forall i :: i in r <==> 0 <= i < n
  {
    if n == 0 then {} else Below(n - 1) + {n - 1}
  }

  lemma {:induction false} FirstsSize(rests: seq<int>, order: seq<int>, k: nat)
    requires SortedOrder(rests, order, |order|) && k <= |order|
    ensures |Firsts(order, k)| == k
  {
    if k > 0 {
      FirstsSize(rests, order, k - 1);
      assert Firsts(order, k) == Firsts(order, k - 1) + {order[k - 1]};
      assert forall p | 0 <= p < k - 1 :: Beats(rests, order[p], order[k - 1]);
    } else {
      assert Firsts(order, 0) == {};
    }
  }

  lemma SubsetOfSameSize(a: set<int>, b: set<int>)
    requires a <= b && |a| == |b|
    ensures a == b
  {
    assert |b - a| == 0;
  }

  /** Every line has a place in the order, and as many lines beat it as stand before it. */
  lemma PlaceIsRank(rests: seq<int>, order: seq<int>, p: nat)
    requires SortedOrder(rests, order, |rests|) && p < |order|
    ensures Better(rests, order[p]) == Firsts(order, p) && |Better(rests, order[p])| == p
    ensures Firsts(order, |order|) == Below(|rests|)
  {
    FirstsSize(rests, order, |order|);
    SubsetOfSameSize(Firsts(order, |order|), Below(|rests|));
    FirstsSize(rests, order, p);
    forall j | j in Better(rests, order[p]) ensures j in Firsts(order, p) {
      assert j in Below(|rests|);
      var q :| 0 <= q < |order| && order[q] == j;
      assert q >= p ==> q == p || Beats(rests, order[p], order[q]);
    }
    assert Better(rests, order[p]) == Firsts(order, p);
  }

  ghost function BumpedSet(rests: seq<int>, leftover: int): set<int> {
    set i | 0 <= i < |rests| && Bumped(rests, leftover, i)
  }

  /** A line gets an extra unit exactly when it is among the first `leftover` of the order. */
  lemma BumpedIsFirst(rests: seq<int>, leftover: nat, i: int)
    requires leftover <= |rests| && 0 <= i < |rests|
    ensures Bumped(rests, leftover, i) <==> i in Firsts(StableOrder(rests, |rests|), leftover)
  {
    var order := StableOrder(rests, |rests|);
    PlaceIsRank(rests, order, 0);
    assert i in Below(|rests|);
    var p :| 0 <= p < |order| && order[p] == i;
    PlaceIsRank(rests, order, p);
    if i in Firsts(order, leftover) {
      var q :| 0 <= q < leftover && order[q] == i;
      PlaceIsRank(rests, order, q);
    }
  }

  lemma {:induction false} BumpedAreFirsts(rests: seq<int>, leftover: nat)
    requires leftover <= |rests|
    ensures var order := StableOrder(rests, |rests|);
            BumpedSet(rests, leftover) == Firsts(order, leftover) && |BumpedSet(rests, leftover)| == leftover
  {
    var order := StableOrder(rests, |rests|);
    FirstsSize(rests, order, leftover);
    forall i | 0 <= i < |rests| ensures i in BumpedSet(rests, leftover) <==> i in Firsts(order, leftover) {
      BumpedIsFirst(rests, leftover, i);
    }
    assert BumpedSet(rests, leftover) == Firsts(order, leftover);
  }

  // ----- arithmetic of the floors and remainders

  lemma SumAppend(a: seq<int>, x: int)
    ensures Sum(a + [x]) == Sum(a) + x
  {
  }

  lemma ScaledStep(scale: int, total: int, w: int, floors: int, weights: int)
    requires scale > 0
    ensures scale * (floors + w * total / scale) + w * total % scale == scale * floors + total * w
    ensures total * (weights + w) == total * weights + total * w
  {
  }

  ghost function FloorsTo(weights: seq<int>, total: int, scale: int, n: nat): seq<int>
    requires n <= |weights| && scale > 0
  {
    seq(n, i requires 0 <= i < n => weights[i] * total / scale)
  }

  ghost function RestsTo(weights: seq<int>, total: int, scale: int, n: nat): seq<int>
    requires n <= |weights| && scale > 0
  {
    seq(n, i requires 0 <= i < n => weights[i] * total % scale)
  }

  lemma PrefixSums(weights: seq<int>, total: int, scale: int, n: nat)
    requires 0 < n <= |weights| && scale > 0
    ensures Sum(FloorsTo(weights, total, scale, n))
         == Sum(FloorsTo(weights, total, scale, n - 1)) + weights[n - 1] * total / scale
    ensures Sum(RestsTo(weights, total, scale, n))
         == Sum(RestsTo(weights, total, scale, n - 1)) + weights[n - 1] * total % scale
    ensures Sum(weights[..n]) == Sum(weights[..n - 1]) + weights[n - 1]
  {
    assert FloorsTo(weights, total, scale, n)[..n - 1] == FloorsTo(weights, total, scale, n - 1);
    assert RestsTo(weights, total, scale, n)[..n - 1] == RestsTo(weights, total, scale, n - 1);
    assert weights[..n][..n - 1] == weights[..n - 1];
  }

  lemma {:induction false} ScaledSums(weights: seq<int>, total: int, scale: int, n: nat)
    requires n <= |weights| && scale > 0
    ensures scale * Sum(FloorsTo(weights, total, scale, n)) + Sum(RestsTo(weights, total, scale, n))
         == total * Sum(weights[..n])
  {
    if n > 0 {
      ScaledSums(weights, total, scale, n - 1);
      PrefixSums(weights, total, scale, n);
      ScaledStep(scale, total, weights[n - 1], Sum(FloorsTo(weights, total, scale, n - 1)), Sum(weights[..n - 1]));
    }
  }

  ghost function Positive(a: seq<int>): set<int> {
    set i | 0 <= i < |a| && a[i] > 0
  }

  lemma {:induction false} SumBound(a: seq<int>, bound: nat)
    requires forall i | 0 <= i < |a| :: 0 <= a[i] <= bound
    ensures 0 <= Sum(a) <= bound * |Positive(a)|
  {
    if a == [] {
      assert Positive(a) == {};
    } else {
      var init, last := a[..|a| - 1], |a| - 1;
      SumBound(init, bound);
      assert Positive(a) == Positive(init) + (if a[last] > 0 then {last} else {});
      assert bound * (|Positive(init)| + 1) == bound * |Positive(init)| + bound;
    }
  }

  lemma RestsMakeLeftover(weights: seq<int>, total: int)
    requires Sum(weights) > 0
    ensures Sum(weights) * Leftover(weights, total) == Sum(Rests(weights, total))
  {
    var scale, n := Sum(weights), |weights|;
    ScaledSums(weights, total, scale, n);
    assert weights[..n] == weights;
    assert Floors(weights, total) == FloorsTo(weights, total, scale, n);
    assert Rests(weights, total) == RestsTo(weights, total, scale, n);
    Distribute(scale, total, Sum(Floors(weights, total)));
  }

  lemma Distribute(k: int, a: int, b: int)
    ensures k * (a - b) == k * a - k * b
    ensures a * k == k * a
  {
  }

  /** What the floors leave over is less than the number of lines with a remainder,
      unless there is none. */
  lemma LeftoverBound(weights: seq<int>, total: int)
    requires Sum(weights) > 0
    ensures var left, positive := Leftover(weights, total), |Positive(Rests(weights, total))|;
            0 <= left <= positive <= |weights| && (left > 0 ==> left < positive)
  {
    var rests := Rests(weights, total);
    RestsMakeLeftover(weights, total);
    RestsRange(weights, total);
    PositiveCount(rests);
    SumBound(rests, Sum(weights) - 1);
    BoundByProduct(Sum(weights), Leftover(weights, total), |Positive(rests)|);
  }

  lemma RestsRange(weights: seq<int>, total: int)
    requires Sum(weights) > 0
    ensures forall i | 0 <= i < |weights| :: 0 <= Rests(weights, total)[i] <= Sum(weights) - 1
  {
  }

  lemma PositiveCount(a: seq<int>)
    ensures |Positive(a)| <= |a|
  {
    assert Positive(a) <= Below(|a|);
    SubsetSize(Positive(a), Below(|a|));
  }

  lemma BoundByProduct(scale: int, left: int, positive: int)
    requires scale > 0 && positive >= 0 && 0 <= scale * left <= (scale - 1) * positive
    ensures 0 <= left <= positive && (left > 0 ==> left < positive)
  {
  }

  // ----- the method

  /** Hands out the leftover units along the order, one to a line, until none is left. */
  method Apportion(weights: seq<int>, total: int) returns (result: array<int>)
    ensures fresh(result) && result[..] == Apportioned(weights, total)
  {
    var sumW := Sum(weights);
    var n := |weights|;
    if sumW <= 0 || total <= 0 {
      result := new int[n](_ => 0);
      return;
    }
    var floored := Floors(weights, total);
    var remaining := total - Sum(floored);
    ghost var leftover := remaining;
    LeftoverBound(weights, total);
    var rests := Rests(weights, total);
    var order := StableOrder(rests, n);
    result := new int[n](i requires 0 <= i < n => floored[i]);
    var k := 0;
    while k < n && remaining > 0
      invariant 0 <= k <= n && remaining == leftover - k >= 0
      invariant forall i | 0 <= i < n :: result[i] == floored[i] + if i in Firsts(order, k) then 1 else 0
    {
      assert order[k] !in Firsts(order, k) by {
        assert forall p | 0 <= p < k :: Beats(rests, order[p], order[k]);
      }
      assert Firsts(order, k + 1) == Firsts(order, k) + {order[k]};
      var i := order[k];
      result[i] := result[i] + 1;
      remaining := remaining - 1;
      k := k + 1;
    }
    BumpedAreFirsts(rests, leftover);
    forall i | 0 <= i < n ensures result[i] == Apportioned(weights, total)[i] {
      assert i in BumpedSet(rests, leftover) <==> i in Firsts(order, leftover);
    }
  }

  // ----- main results

  ghost function Indicated(a: seq<int>, b: set<int>, n: nat): seq<int>
    requires n <= |a|
  {
    seq(n, i requires 0 <= i < n => a[i] + if i in b then 1 else 0)
  }

  lemma IntersectBelow(b: set<int>, n: nat)
    requires n > 0
    ensures |b * Below(n)| == |b * Below(n - 1)| + if n - 1 in b then 1 else 0
  {
    if n - 1 in b {
      assert b * Below(n) == b * Below(n - 1) + {n - 1};
    } else {
      assert b * Below(n) == b * Below(n - 1);
    }
  }

  lemma IndicatedStep(a: seq<int>, b: set<int>, n: nat)
    requires 0 < n <= |a|
    ensures Sum(Indicated(a, b, n)) == Sum(Indicated(a, b, n - 1)) + a[n - 1] + if n - 1 in b then 1 else 0
    ensures Sum(a[..n]) == Sum(a[..n - 1]) + a[n - 1]
  {
    assert Indicated(a, b, n)[..n - 1] == Indicated(a, b, n - 1);
    assert a[..n][..n - 1] == a[..n - 1];
  }

  lemma {:induction false} SumIndicated(a: seq<int>, b: set<int>, n: nat)
    requires n <= |a|
    ensures Sum(Indicated(a, b, n)) == Sum(a[..n]) + |b * Below(n)|
  {
    if n == 0 {
      assert b * Below(0) == {};
    } else {
      SumIndicated(a, b, n - 1);
      IndicatedStep(a, b, n);
      IntersectBelow(b, n);
    }
  }

  lemma {:induction false} SumZeros(n: nat)
    ensures Sum(seq(n, i => 0)) == 0
  {
    if n > 0 {
      SumZeros(n - 1);
      assert seq(n, i => 0)[..n - 1] == seq(n - 1, i => 0);
    }
  }

  lemma ApportionedIsIndicated(weights: seq<int>, total: int)
    requires Sum(weights) > 0 && total > 0
    ensures var b := BumpedSet(Rests(weights, total), Leftover(weights, total));
            Apportioned(weights, total) == Indicated(Floors(weights, total), b, |weights|)
  {
    var b := BumpedSet(Rests(weights, total), Leftover(weights, total));
    var shown := Indicated(Floors(weights, total), b, |weights|);
    forall i | 0 <= i < |weights| ensures Apportioned(weights, total)[i] == shown[i] {
      assert Part(weights, total, i) == shown[i];
    }
  }

  lemma PartsSum(weights: seq<int>, total: int)
    requires Sum(weights) > 0 && total > 0
    ensures Sum(Apportioned(weights, total)) == total
  {
    var leftover, floors := Leftover(weights, total), Floors(weights, total);
    var b := BumpedSet(Rests(weights, total), leftover);
    LeftoverBound(weights, total);
    assert |b * Below(|weights|)| == leftover by {
      BumpedAreFirsts(Rests(weights, total), leftover);
      assert b * Below(|weights|) == b;
    }
    SumIndicated(floors, b, |weights|);
    assert floors[..|weights|] == floors;
    ApportionedIsIndicated(weights, total);
  }

  /** No unit is lost or made up: the parts sum to the total, exactly when the total is
      zero or there is weight to carry it. */
  lemma PartsSumToTotal(weights: seq<int>, total: int)
    ensures Sum(Apportioned(weights, total)) == total <==> total == 0 || (total > 0 && Sum(weights) > 0)
  {
    if Sum(weights) <= 0 || total <= 0 {
      SumZeros(|weights|);
    } else {
      PartsSum(weights, total);
    }
  }

  /** Only a line with a remainder gets an extra unit. */
  lemma BumpedHasRest(weights: seq<int>, total: int, i: nat)
    requires Sum(weights) > 0 && i < |weights|
    ensures Bumped(Rests(weights, total), Leftover(weights, total), i) ==> Rests(weights, total)[i] > 0
  {
    var rests := Rests(weights, total);
    RestsRange(weights, total);
    LeftoverBound(weights, total);
    if rests[i] <= 0 {
      assert Positive(rests) <= Better(rests, i);
      SubsetSize(Positive(rests), Better(rests, i));
    }
  }

  lemma FloorOrNext(weights: seq<int>, total: int, i: nat)
    requires Sum(weights) > 0 && i < |weights|
    ensures var part, floor := Part(weights, total, i), Floor(weights, total, i);
            part == floor || (part == floor + 1 && Rests(weights, total)[i] > 0)
  {
    BumpedHasRest(weights, total, i);
  }

  /** `part` is strictly within one of the quotient of `share` by `scale`. */
  predicate Near(share: int, scale: int, part: int) {
    share - scale < part * scale < share + scale
  }

  lemma RoundedIsNear(share: int, scale: int, part: int)
    requires scale > 0 && (part == share / scale || (part == share / scale + 1 && share % scale > 0))
    ensures Near(share, scale, part)
  {
  }

  /** The quota rule: every part lies strictly within one unit of its exact share
      `weights[i] * total / Sum(weights)`, so it is that share rounded down or up. */
  lemma WithinOneOfQuota(weights: seq<int>, total: int, i: nat)
    requires Sum(weights) > 0 && total >= 0 && i < |weights|
    ensures Near(weights[i] * total, Sum(weights), Apportioned(weights, total)[i])
  {
    if total > 0 {
      FloorOrNext(weights, total, i);
      RoundedIsNear(weights[i] * total, Sum(weights), Part(weights, total, i));
    }
  }

  /** For weights that are not negative: no part is negative, a line without weight gets
      nothing, and no part exceeds its weight when the total does not exceed theirs. */
  lemma PartsAreBounded(weights: seq<int>, total: int, i: nat)
    requires total >= 0 && i < |weights| && forall k | 0 <= k < |weights| :: weights[k] >= 0
    ensures var part := Apportioned(weights, total)[i];
      && part >= 0
      && (weights[i] == 0 ==> part == 0)
      && (total <= Sum(weights) ==> part <= weights[i])
  {
    if Sum(weights) > 0 {
      WithinOneOfQuota(weights, total, i);
      NearShare(weights[i], total, Sum(weights), Apportioned(weights, total)[i]);
    }
  }

  lemma NearShare(w: nat, total: nat, scale: int, part: int)
    requires scale > 0 && Near(w * total, scale, part)
    ensures part >= 0 && (w == 0 ==> part == 0) && (total <= scale ==> part <= w)
  {
    assert part < 0 ==> part * scale <= -scale;
    assert part > 0 ==> part * scale >= scale;
    assert total <= scale ==> w * total <= w * scale;
    assert part > w ==> part * scale >= (w + 1) * scale == w * scale + scale;
  }

  lemma BeatingIsMonotone(rests: seq<int>, i: nat, j: nat)
    requires i < |rests| && j < |rests| && Beats(rests, i, j)
    ensures |Better(rests, i)| < |Better(rests, j)|
  {
    assert Better(rests, i) + {i} <= Better(rests, j);
    SubsetSize(Better(rests, i) + {i}, Better(rests, j));
  }

  /** The largest remainders are served first, ties by position. */
  lemma ServedBeatsUnserved(weights: seq<int>, total: int, i: nat, j: nat)
    requires Sum(weights) > 0 && total > 0 && i < |weights| && j < |weights|
    ensures var parts := Apportioned(weights, total);
            parts[i] > Floor(weights, total, i) && parts[j] == Floor(weights, total, j)
            ==> Beats(Rests(weights, total), i, j)
  {
    var rests := Rests(weights, total);
    if !Beats(rests, i, j) && i != j {
      assert Beats(rests, j, i);
      BeatingIsMonotone(rests, j, i);
    }
  }

  /** A strictly larger weight never gets a smaller part. */
  lemma PartsFollowWeights(weights: seq<int>, total: int, i: nat, j: nat)
    requires i < |weights| && j < |weights| && weights[i] > weights[j]
    ensures Apportioned(weights, total)[i] >= Apportioned(weights, total)[j]
  {
    if Sum(weights) > 0 && total > 0 {
      var scale, rests := Sum(weights), Rests(weights, total);
      DivisionIsMonotone(weights[j] * total, weights[i] * total, scale);
      if Floor(weights, total, i) == Floor(weights, total, j) {
        assert Beats(rests, i, j);
        BeatingIsMonotone(rests, i, j);
      }
    }
  }

  lemma DivisionIsMonotone(a: int, b: int, scale: int)
    requires scale > 0
    ensures a <= b ==> a / scale <= b / scale
    ensures a < b && a / scale == b / scale ==> a % scale < b % scale
  {
    assert a == a / scale * scale + a % scale;
    assert b == b / scale * scale + b % scale;
    assert a / scale > b / scale ==> a / scale * scale >= (b / scale + 1) * scale == b / scale * scale + scale;
  }
}
