/** The ranking of ranking.py: integer scores from exact rationals, a median of past prices. */
module Ranking {
  import opened Prelude

  datatype Classification = InsufficientData | HistoryBackedPriceDrop | ProviderDiscountOnly | BaselineOnly

  datatype RankedProduct = RankedProduct(
    price: Option<real>, discount: Option<real>, commission: Option<real>, volume: Option<int>, completeness: int)

  datatype Score = Score(
    median: Option<real>, count: nat, drop: Option<real>,
    history: int, discount: int, volume: int, commission: int, completeness: int,
    total: int, classification: Classification)

  function Min(a: int, b: int): int {
    if a <= b then a else b
  }

  function BoundedFloor(value: Option<real>, divisor: real, maximum: nat): int
    requires divisor > 0.0
  {
    if value.None? || value.value <= 0.0 then 0 else Min(maximum, (value.value / divisor).Floor)
  }

  function VolumeScore(volume: Option<int>): int {
    if volume.None? || volume.value <= 0 then 0
    else if volume.value < 10 then 2
    else if volume.value < 50 then 4
    else if volume.value < 200 then 6
    else if volume.value < 1000 then 8
    else 10
  }

  /** The prices that count: the positive ones. */
  function Positive(prices: seq<real>): seq<real> {
    if prices == [] then []
    else Positive(prices[..|prices| - 1]) + if prices[|prices| - 1] > 0.0 then [prices[|prices| - 1]] else []
  }

  function Insert(x: real, s: seq<real>): seq<real> {
    if s == [] || x <= s[0] then [x] + s else [s[0]] + Insert(x, s[1..])
  }

  function Sorted(s: seq<real>): seq<real> {
    if s == [] then [] else Insert(s[|s| - 1], Sorted(s[..|s| - 1]))
  }

  function Median(s: seq<real>): real
    requires s != []
  {
    var middle := |s| / 2;
    if |s| % 2 == 1 then s[middle] else (s[middle - 1] + s[middle]) / 2.0
  }

  function Drop(median: real, price: real): real
    requires median > 0.0
  {
    (median - price) / median * 100.0
  }

  function HistoryScore(drop: real, minimum: real): int {
    if drop >= minimum then Min(60, (drop * 2.0).Floor) else 0
  }

  lemma {:induction false} InsertSorts(x: real, s: seq<real>)
    requires IsSorted(s)
    ensures IsSorted(Insert(x, s))
    ensures Insert(x, s) != [] && Insert(x, s)[0] == if s == [] || x <= s[0] then x else s[0]
  {
    if s != [] && x > s[0] {
      InsertSorts(x, s[1..]);
    }
  }

  lemma {:induction false} InsertKeeps(x: real, s: seq<real>)
    ensures multiset(Insert(x, s)) == multiset(s) + multiset{x} && |Insert(x, s)| == |s| + 1
  {
    if s != [] && x > s[0] {
      InsertKeeps(x, s[1..]);
      assert s == [s[0]] + s[1..];
    }
  }

  predicate IsSorted(s: seq<real>) {
    forall i, j | 0 <= i < j < |s| :: s[i] <= s[j]
  }

  /** sorted: the same prices, in order. */
  lemma {:induction false} SortedSorts(s: seq<real>)
    ensures IsSorted(Sorted(s)) && multiset(Sorted(s)) == multiset(s) && |Sorted(s)| == |s|
  {
    if s != [] {
      var n := |s| - 1;
      SortedSorts(s[..n]);
      InsertKeeps(s[n], Sorted(s[..n]));
      InsertSorts(s[n], Sorted(s[..n]));
      assert s == s[..n] + [s[n]];
    }
  }

  ghost predicate AllPositive(s: seq<real>) {
    forall i | 0 <= i < |s| :: s[i] > 0.0
  }

  lemma {:induction false} PositiveIsPositive(prices: seq<real>)
    ensures AllPositive(Positive(prices))
  {
    if prices != [] {
      var n := |prices| - 1;
      PositiveIsPositive(prices[..n]);
    }
  }

  lemma {:induction false} PositiveCounts(prices: seq<real>, x: real)
    ensures multiset(Positive(prices))[x] == if x > 0.0 then multiset(prices)[x] else 0
  {
    if prices != [] {
      var n := |prices| - 1;
      PositiveCounts(prices[..n], x);
      assert prices == prices[..n] + [prices[n]];
    }
  }

  lemma {:induction false} InsertPositive(x: real, s: seq<real>)
    requires x > 0.0 && AllPositive(s)
    ensures AllPositive(Insert(x, s))
  {
    if s != [] && x > s[0] {
      InsertPositive(x, s[1..]);
    }
  }

  lemma {:induction false} SortedPositive(s: seq<real>)
    requires AllPositive(s)
    ensures AllPositive(Sorted(s)) && |Sorted(s)| == |s|
  {
    if s != [] {
      var n := |s| - 1;
      SortedPositive(s[..n]);
      InsertPositive(s[n], Sorted(s[..n]));
      InsertLength(s[n], Sorted(s[..n]));
    }
  }

  lemma {:induction false} InsertLength(x: real, s: seq<real>)
    ensures |Insert(x, s)| == |s| + 1
  {
    if s != [] && x > s[0] {
      InsertLength(x, s[1..]);
    }
  }

  lemma MedianIsPositive(prices: seq<real>)
    requires Positive(prices) != []
    ensures |Sorted(Positive(prices))| == |Positive(prices)| && Median(Sorted(Positive(prices))) > 0.0
  {
    PositiveIsPositive(prices);
    SortedPositive(Positive(prices));
  }

  // ------------------------------------------------------------- the ranking

  /** The median and the drop from it, if there are two prices to compare with. */
  function History(price: Option<real>, prices: seq<real>): Option<(real, real)> {
    if price.None? || |Positive(prices)| < 2 then None
    else
      MedianIsPositive(prices);
      var median := Median(Sorted(Positive(prices)));
      Some((median, Drop(median, price.value)))
  }

  function Rank(p: RankedProduct, prices: seq<real>, minimum: real): Score {
    var history := History(p.price, prices);
    var count := if p.price.None? then 0 else |Positive(prices)|;
    var historyScore := if history.Some? then HistoryScore(history.value.1, minimum) else 0;
    var discount, commission := BoundedFloor(p.discount, 2.0, 15), BoundedFloor(p.commission, 1.0, 5);
    var classification :=
      if p.price.None? then InsufficientData
      else if history.Some? && history.value.1 >= minimum then HistoryBackedPriceDrop
      else if p.discount.Some? && p.discount.value > 0.0 then ProviderDiscountOnly
      else BaselineOnly;
    Score(if history.Some? then Some(history.value.0) else None, count,
          if history.Some? then Some(history.value.1) else None,
          historyScore, discount, VolumeScore(p.volume), commission, p.completeness,
          historyScore + discount + VolumeScore(p.volume) + commission + p.completeness, classification)
  }

  /** The score and classification checks of the result table. */
  ghost predicate TableAccepts(s: Score, price: Option<real>, minimum: real) {
    && 0 <= s.history <= 60 && 0 <= s.discount <= 15 && 0 <= s.volume <= 10
    && 0 <= s.commission <= 5 && 0 <= s.completeness <= 10
    && s.total == s.history + s.discount + s.volume + s.commission + s.completeness && 0 <= s.total <= 100
    && (s.classification == HistoryBackedPriceDrop ==>
          price.Some? && s.count >= 2 && s.median.Some? && s.drop.Some? && s.drop.value >= minimum)
    && (s.classification == InsufficientData ==> price.None?)
  }

  /** Whatever the provider and the history say, the row's checks hold and a history score
      is given only to a drop backed by history. */
  lemma RankFitsTheTable(p: RankedProduct, prices: seq<real>, minimum: real)
    requires 0 <= p.completeness <= 10 && minimum > 0.0 && (p.price.Some? ==> p.price.value > 0.0)
    ensures TableAccepts(Rank(p, prices, minimum), p.price, minimum)
    ensures Rank(p, prices, minimum).history > 0 ==> Rank(p, prices, minimum).classification == HistoryBackedPriceDrop
    ensures Rank(p, prices, minimum).drop.Some? ==> Rank(p, prices, minimum).drop.value < 100.0
  {
    FloorIsNatural(p.discount, 2.0, 15);
    FloorIsNatural(p.commission, 1.0, 5);
    if History(p.price, prices).Some? {
      MedianIsPositive(prices);
      DropBelowHundred(History(p.price, prices).value.0, p.price.value);
    }
  }

  lemma FloorIsNatural(value: Option<real>, divisor: real, maximum: nat)
    requires divisor > 0.0
    ensures 0 <= BoundedFloor(value, divisor, maximum) <= maximum
  {
    if value.Some? && value.value > 0.0 {
      assert value.value / divisor > 0.0;
    }
  }

  lemma Quotient(a: real, m: real)
    requires m > 0.0
    ensures (a / m) * m == a
    ensures a < m ==> a / m < 1.0
  {
  }

  lemma QuotientAtLeast(q: real, a: real, m: real)
    requires m > 0.0 && q * m <= a
    ensures q <= a / m
  {
  }

  lemma Scale(k: real, a: real, b: real)
    requires k >= 0.0 && a <= b
    ensures k * a <= k * b
  {
  }

  lemma DropBelowHundred(median: real, price: real)
    requires median > 0.0 && price > 0.0
    ensures Drop(median, price) < 100.0
  {
    Quotient(median - price, median);
  }

  // ------------------------------------------------------------ monotonicity

  ghost predicate Below(a: seq<real>, b: seq<real>) {
    |a| == |b| && forall i | 0 <= i < |a| :: a[i] <= b[i]
  }

  lemma {:induction false} InsertIsMonotone(x: real, s: seq<real>, y: real, t: seq<real>)
    requires x <= y && Below(s, t) && IsSorted(s) && IsSorted(t)
    ensures Below(Insert(x, s), Insert(y, t))
    decreases |s|
  {
    if s != [] {
      var s', t' := s[1..], t[1..];
      if x <= s[0] && y > t[0] {
        assert s == Insert(s[0], s') by { InsertFirst(s); }
        InsertIsMonotone(s[0], s', y, t');
      } else if x > s[0] && y <= t[0] {
        assert t == Insert(t[0], t') by { InsertFirst(t); }
        InsertIsMonotone(x, s', t[0], t');
      } else if x > s[0] {
        InsertIsMonotone(x, s', y, t');
      }
    }
  }

  lemma InsertFirst(s: seq<real>)
    requires s != [] && IsSorted(s)
    ensures Insert(s[0], s[1..]) == s
  {
    assert s == [s[0]] + s[1..];
  }

  /** Raising any of the prices raises every order statistic. */
  lemma {:induction false} SortedIsMonotone(a: seq<real>, b: seq<real>)
    requires Below(a, b)
    ensures Below(Sorted(a), Sorted(b))
  {
    if a != [] {
      var n := |a| - 1;
      SortedIsMonotone(a[..n], b[..n]);
      SortedSorts(a[..n]);
      SortedSorts(b[..n]);
      InsertIsMonotone(a[n], Sorted(a[..n]), b[n], Sorted(b[..n]));
    }
  }

  lemma DropIsMonotone(m: real, m': real, c: real, c': real)
    requires 0.0 < m <= m' && 0.0 <= c' <= c
    ensures Drop(m, c) <= Drop(m', c')
  {
    var q := (m - c) / m;
    Quotient(m - c, m);
    Quotient(m - c - m, m);
    var k := 1.0 - q;
    assert k * m == c;
    assert k >= 0.0 by {
      if k < 0.0 {
        Scale(m, k, 0.0);
      }
    }
    Scale(k, m, m');
    var scaled := k * m';
    assert q * m' == (1.0 - k) * m' == m' - scaled;
    assert c <= scaled;
    QuotientAtLeast(q, m' - c', m');
  }

  /** No price starts or stops counting. */
  ghost predicate SameCounting(a: seq<real>, b: seq<real>) {
    |a| == |b| && forall i | 0 <= i < |a| :: a[i] > 0.0 <==> b[i] > 0.0
  }

  lemma {:induction false} PositiveBelow(a: seq<real>, b: seq<real>)
    requires Below(a, b) && SameCounting(a, b)
    ensures Below(Positive(a), Positive(b))
  {
    if a != [] {
      var n := |a| - 1;
      PositiveBelow(a[..n], b[..n]);
    }
  }

  /** A lower current price, or higher past ones, never lower the history score, as long as
      the same past prices count. */
  lemma HistoryScoreIsMonotone(p: RankedProduct, price: real, prices: seq<real>, raised: seq<real>, minimum: real)
    requires p.price.Some? && 0.0 < price <= p.price.value && minimum > 0.0
    requires Below(prices, raised) && SameCounting(prices, raised)
    ensures Rank(p, prices, minimum).history <= Rank(p.(price := Some(price)), raised, minimum).history
  {
    var before, after := Positive(prices), Positive(raised);
    PositiveBelow(prices, raised);
    if |before| >= 2 {
      MedianIsPositive(prices);
      MedianIsPositive(raised);
      MedianIsMonotone(before, after);
      DropIsMonotone(Median(Sorted(before)), Median(Sorted(after)), p.price.value, price);
      HistoryOfDropIsMonotone(Drop(Median(Sorted(before)), p.price.value), Drop(Median(Sorted(after)), price), minimum);
    }
  }

  lemma MedianIsMonotone(a: seq<real>, b: seq<real>)
    requires Below(a, b) && a != [] && |Sorted(a)| == |a| && |Sorted(b)| == |b|
    ensures Median(Sorted(a)) <= Median(Sorted(b))
  {
    SortedIsMonotone(a, b);
  }

  lemma HistoryOfDropIsMonotone(d: real, d': real, minimum: real)
    requires d <= d' && minimum > 0.0
    ensures HistoryScore(d, minimum) <= HistoryScore(d', minimum)
  {
    FloorIsMonotone(d * 2.0, d' * 2.0);
  }

  lemma FloorIsMonotone(a: real, b: real)
    requires a <= b
    ensures a.Floor <= b.Floor
  {
  }

  // ------------------------------------------------------- order of snapshots

  lemma FirstIsLeast(a: seq<real>, b: seq<real>)
    requires IsSorted(a) && a != [] && b != [] && multiset(a) == multiset(b)
    ensures a[0] <= b[0]
  {
    assert b[0] in multiset(b);
    assert b[0] in a;
  }

  lemma RestOfMultiset(a: seq<real>)
    requires a != []
    ensures multiset(a[1..]) == multiset(a) - multiset{a[0]}
  {
    assert a == [a[0]] + a[1..];
  }

  lemma SameFirst(a: seq<real>, b: seq<real>)
    requires IsSorted(a) && IsSorted(b) && multiset(a) == multiset(b) && a != [] && b != []
    ensures a[0] == b[0] && multiset(a[1..]) == multiset(b[1..])
  {
    FirstIsLeast(a, b);
    FirstIsLeast(b, a);
    RestOfMultiset(a);
    RestOfMultiset(b);
  }

  lemma {:induction false} SortedIsUnique(a: seq<real>, b: seq<real>)
    requires IsSorted(a) && IsSorted(b) && multiset(a) == multiset(b)
    ensures a == b
  {
    SameMultisetSameLength(a, b);
    if a != [] {
      SameFirst(a, b);
      SortedIsUnique(a[1..], b[1..]);
      assert a == [a[0]] + a[1..] && b == [b[0]] + b[1..];
    }
  }

  lemma SameMultisetSameLength(a: seq<real>, b: seq<real>)
    requires multiset(a) == multiset(b)
    ensures |a| == |b|
  {
    assert |multiset(a)| == |a| && |multiset(b)| == |b|;
  }

  /** The result does not depend on the order in which the snapshots are read. */
  lemma RankIgnoresOrder(p: RankedProduct, a: seq<real>, b: seq<real>, minimum: real)
    requires multiset(a) == multiset(b)
    ensures Rank(p, a, minimum) == Rank(p, b, minimum)
  {
    forall x ensures multiset(Positive(a))[x] == multiset(Positive(b))[x] {
      PositiveCounts(a, x);
      PositiveCounts(b, x);
    }
    SameSorted(Positive(a), Positive(b));
  }

  lemma SameSorted(a: seq<real>, b: seq<real>)
    requires multiset(a) == multiset(b)
    ensures Sorted(a) == Sorted(b) && |a| == |b|
  {
    SameMultisetSameLength(a, b);
    SortedSorts(a);
    SortedSorts(b);
    SortedIsUnique(Sorted(a), Sorted(b));
  }

  // ------------------------------------------------------------ what a score is

  /** The whole part of x, or the cap if that is less. */
  predicate IsFloored(score: int, x: real, cap: int) {
    score <= cap && score as real <= x && (score < cap ==> x < score as real + 1.0)
  }

  /** Nothing for a missing or non-positive value, and otherwise its share, in whole points. */
  predicate IsShare(score: int, value: Option<real>, divisor: real, cap: int)
    requires divisor > 0.0
  {
    if value.Some? && value.value > 0.0 then
      score <= cap && score as real * divisor <= value.value && (score < cap ==> value.value < (score as real + 1.0) * divisor)
    else score == 0
  }

  /** Two points more for each of the volumes 1, 10, 50, 200 and 1000 that is reached. */
  predicate IsVolumeScore(score: int, volume: Option<int>) {
    var reached := if volume.Some? then volume.value else 0;
    && (score >= 2 <==> reached >= 1) && (score >= 4 <==> reached >= 10) && (score >= 6 <==> reached >= 50)
    && (score >= 8 <==> reached >= 200) && (score >= 10 <==> reached >= 1000)
    && 0 <= score <= 10 && score % 2 == 0
  }

  /** The prices that count, in order. */
  ghost predicate IsPast(past: seq<real>, prices: seq<real>) {
    IsSorted(past) && forall x :: multiset(past)[x] == if x > 0.0 then multiset(prices)[x] else 0
  }

  lemma FloorOfQuotient(v: real, k: real, q: real, lo: real, hi: real)
    requires k > 0.0 && q == v / k && lo <= q < hi
    ensures lo * k <= v < hi * k
  {
    Quotient(v, k);
    Product(lo, q, k);
    StrictProduct(q, hi, k);
  }

  lemma Product(a: real, b: real, k: real)
    requires k > 0.0 && a <= b
    ensures a * k <= b * k
  {
  }

  lemma StrictProduct(a: real, b: real, k: real)
    requires k > 0.0 && a < b
    ensures a * k < b * k
  {
  }

  lemma ShareOf(value: Option<real>, divisor: real, cap: nat)
    requires divisor > 0.0
    ensures IsShare(BoundedFloor(value, divisor, cap), value, divisor, cap)
  {
    if value.Some? && value.value > 0.0 {
      var q := value.value / divisor;
      var whole := q.Floor;
      FloorOfQuotient(value.value, divisor, q, whole as real, whole as real + 1.0);
      Product(Min(cap, whole) as real, whole as real, divisor);
    }
  }

  /** With an even number of prices the median lies halfway between the two in the middle. */
  lemma MedianIsMidpoint(s: seq<real>)
    requires s != []
    ensures 2.0 * Median(s) == s[(|s| - 1) / 2] + s[|s| / 2]
  {
  }

  lemma DropOf(median: real, price: real)
    requires median > 0.0
    ensures median * (100.0 - Drop(median, price)) == 100.0 * price
  {
    var q := (median - price) / median;
    Quotient(median - price, median);
    assert median * q == median - price;
    assert median * (q * 100.0) == (median * q) * 100.0;
  }

  /** The median of the past prices that count, and the drop from it in percent. */
  ghost predicate IsHistory(history: Option<(real, real)>, price: Option<real>, past: seq<real>) {
    && (history.Some? <==> price.Some? && |past| >= 2)
    && (history.Some? ==>
          && 2.0 * history.value.0 == past[(|past| - 1) / 2] + past[|past| / 2]
          && history.value.0 * (100.0 - history.value.1) == 100.0 * price.value)
  }

  lemma HistoryOf(price: Option<real>, prices: seq<real>)
    ensures |Sorted(Positive(prices))| == |Positive(prices)|
    ensures IsHistory(History(price, prices), price, Sorted(Positive(prices)))
  {
    SortedSorts(Positive(prices));
    if price.Some? && |Positive(prices)| >= 2 {
      MedianIsPositive(prices);
      MedianHistory(Sorted(Positive(prices)), price.value);
    }
  }

  lemma MedianHistory(past: seq<real>, price: real)
    requires |past| >= 2 && Median(past) > 0.0
    ensures IsHistory(Some((Median(past), Drop(Median(past), price))), Some(price), past)
  {
    MedianIsMidpoint(past);
    DropOf(Median(past), price);
  }

  lemma SortedIsPast(prices: seq<real>)
    ensures IsPast(Sorted(Positive(prices)), prices)
  {
    var past := Sorted(Positive(prices));
    SortedSorts(Positive(prices));
    forall x ensures multiset(past)[x] == if x > 0.0 then multiset(prices)[x] else 0 {
      PositiveCounts(prices, x);
    }
  }

  /** Every part of a score: the median and the drop, twice the drop in whole points if it is
      large enough, half the declared discount, the commission, the volume's band, and the
      classification. */
  lemma RankAnswers(p: RankedProduct, prices: seq<real>, minimum: real) returns (past: seq<real>, history: Option<(real, real)>)
    ensures IsPast(past, prices) && IsHistory(history, p.price, past)
    ensures var r := Rank(p, prices, minimum);
      var dropped := history.Some? && history.value.1 >= minimum;
      && r.count == (if p.price.Some? then |past| else 0)
      && r.median == (if history.Some? then Some(history.value.0) else None)
      && r.drop == (if history.Some? then Some(history.value.1) else None)
      && (if dropped then IsFloored(r.history, 2.0 * history.value.1, 60) else r.history == 0)
      && IsShare(r.discount, p.discount, 2.0, 15) && IsShare(r.commission, p.commission, 1.0, 5)
      && IsVolumeScore(r.volume, p.volume) && r.completeness == p.completeness
      && r.total == r.history + r.discount + r.volume + r.commission + r.completeness
      && (r.classification == InsufficientData <==> p.price.None?)
      && (r.classification == HistoryBackedPriceDrop <==> dropped)
      && (r.classification == ProviderDiscountOnly <==>
            p.price.Some? && !dropped && p.discount.Some? && p.discount.value > 0.0)
  {
    past, history := Sorted(Positive(prices)), History(p.price, prices);
    SortedIsPast(prices);
    HistoryOf(p.price, prices);
    ShareOf(p.discount, 2.0, 15);
    ShareOf(p.commission, 1.0, 5);
  }
}
