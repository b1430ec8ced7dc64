/**
 * The numbers behind average_rating and total_reviews: Float#round with a
 * precision, Float#to_i, and the live aggregates over a reviewable's reviews
 * (SQL COUNT and AVG(rating), which skips NULL ratings).
 */
module Aggregates {
  import opened Wrappers
  import opened Reviews

  /** 10 to the power p, for any integer p. */
  function Pow10(p: int): (r: real)
    ensures r > 0.0
    decreases if p < 0 then -p else p
  {
    if p == 0 then 1.0
    else if p > 0 then 10.0 * Pow10(p - 1)
    else Pow10(p + 1) / 10.0
  }

  /** Float#round(p): to p decimal places, halves away from zero. */
  function RoundTo(x: real, p: int): real {
    RoundScaled(x, Pow10(p))
  }

  /** `(x * s).round / s`, with Float#round taking halves away from zero. */
  function RoundScaled(x: real, s: real): real
    requires s > 0.0
  {
    if x >= 0.0 then RoundUp(x, s) else -RoundUp(-x, s)
  }

  /** `(x * s).round / s` for x >= 0, where halves go up. */
  function RoundUp(x: real, s: real): real
    requires s > 0.0
  {
    ((x * s + 0.5).Floor as real) / s
  }

  /** Float#to_i: truncation toward zero. */
  function Trunc(x: real): int {
    if x >= 0.0 then x.Floor else -((-x).Floor)
  }

  /** Truncation loses less than one, keeps the sign, and keeps whole numbers as they are. */
  lemma TruncSpec(x: real)
    ensures x >= 0.0 ==> 0.0 <= x - (Trunc(x) as real) < 1.0
    ensures x < 0.0 ==> 0.0 <= (Trunc(x) as real) - x < 1.0
    ensures x == (x.Floor as real) ==> Trunc(x) as real == x
  {
    if x >= 0.0 {
      FloorBounds(x);
    } else {
      FloorBounds(-x);
      if x == (x.Floor as real) {
        assert (-x).Floor == -x.Floor;
      }
    }
  }

  lemma FloorBounds(x: real)
    ensures (x.Floor as real) <= x < (x.Floor as real) + 1.0
  {
  }

  lemma FloorMono(u: real, v: real)
    requires u <= v
    ensures u.Floor <= v.Floor
  {
  }

  lemma DivLe(a: real, b: real, s: real)
    requires s > 0.0 && a <= b
    ensures a / s <= b / s
  {
  }

  lemma MulLe(a: real, b: real, s: real)
    requires s > 0.0 && a <= b
    ensures a * s <= b * s
  {
  }

  lemma MulDivCancel(x: real, s: real)
    requires s > 0.0
    ensures (x * s) / s == x
  {
  }

  lemma DivSub(k: real, y: real, s: real)
    requires s > 0.0
    ensures k / s - y / s == (k - y) / s
  {
  }

  lemma RoundUpError(x: real, s: real)
    requires s > 0.0
    ensures -0.5 / s <= RoundUp(x, s) - x <= 0.5 / s
  {
    var y := x * s;
    var k := (y + 0.5).Floor as real;
    FloorBounds(y + 0.5);
    assert y - 0.5 < k <= y + 0.5;
    MulDivCancel(x, s);
    DivSub(k, y, s);
    DivLe(-0.5, k - y, s);
    DivLe(k - y, 0.5, s);
  }

  lemma RoundScaledError(x: real, s: real)
    requires s > 0.0
    ensures -0.5 / s <= RoundScaled(x, s) - x <= 0.5 / s
  {
    if x >= 0.0 { RoundUpError(x, s); } else { RoundUpError(-x, s); }
  }

  /** A rounded value lies within half a unit of the last kept place of the exact value. */
  lemma RoundToError(x: real, p: int)
    ensures -0.5 / Pow10(p) <= RoundTo(x, p) - x <= 0.5 / Pow10(p)
  {
    RoundScaledError(x, Pow10(p));
  }

  lemma RoundUpExact(x: real, s: real, k: int)
    requires s > 0.0 && x * s == k as real
    ensures RoundUp(x, s) == x
  {
    var y := x * s + 0.5;
    assert y == k as real + 0.5;
    assert y.Floor == k;
    assert RoundUp(x, s) == (k as real) / s;
    assert (k as real) / s == x;
  }

  lemma RoundScaledExact(x: real, s: real, k: int)
    requires s > 0.0 && x * s == k as real
    ensures RoundScaled(x, s) == x
  {
    if x >= 0.0 {
      RoundUpExact(x, s, k);
    } else {
      assert (-x) * s == -(k as real);
      RoundUpExact(-x, s, -k);
    }
  }

  /** A value with no digits beyond the p-th place is unchanged by rounding to p places. */
  lemma RoundToExact(x: real, p: int, k: int)
    requires x * Pow10(p) == k as real
    ensures RoundTo(x, p) == x
  {
    RoundScaledExact(x, Pow10(p), k);
  }

  lemma RoundUpMonotone(x: real, y: real, s: real)
    requires s > 0.0 && 0.0 <= x <= y
    ensures 0.0 <= RoundUp(x, s) <= RoundUp(y, s)
  {
    MulLe(x, y, s);
    MulLe(0.0, x, s);
    FloorMono(x * s + 0.5, y * s + 0.5);
    FloorMono(0.0, x * s + 0.5);
    var a, b := (x * s + 0.5).Floor as real, (y * s + 0.5).Floor as real;
    DivLe(a, b, s);
    DivLe(0.0, a, s);
  }

  lemma RoundScaledMonotone(x: real, y: real, s: real)
    requires s > 0.0 && x <= y
    ensures RoundScaled(x, s) <= RoundScaled(y, s)
  {
    if 0.0 <= x {
      RoundUpMonotone(x, y, s);
    } else if y < 0.0 {
      RoundUpMonotone(-y, -x, s);
    } else {
      RoundUpMonotone(0.0, y, s);
      RoundUpMonotone(0.0, -x, s);
    }
  }

  /** Rounding never reverses the order of two values. */
  lemma RoundToMonotone(x: real, y: real, p: int)
    requires x <= y
    ensures RoundTo(x, p) <= RoundTo(y, p)
  {
    RoundScaledMonotone(x, y, Pow10(p));
  }

  /** The review's rating, or nothing. */
  function RatingOf(r: Review): real {
    if r.rating.Some? then r.rating.value else 0.0
  }

  /** What a create hook adds to ratings_total for this review: `rating.to_i`, 0 for nil. */
  function Contribution(r: Review): int {
    if r.rating.Some? then Trunc(r.rating.value) else 0
  }

  /** SUM(rating) over the reviews with a rating. */
  function RatedSum(s: seq<Review>): real {
    if s == [] then 0.0 else RatingOf(s[0]) + RatedSum(s[1..])
  }

  /** COUNT(rating): the reviews with a rating. */
  function RatedCount(s: seq<Review>): (n: nat)
    ensures n <= |s|
  {
    if s == [] then 0 else (if s[0].rating.Some? then 1 else 0) + RatedCount(s[1..])
  }

  /** The sum of the create-hook contributions of the reviews. */
  function TruncSum(s: seq<Review>): int {
    if s == [] then 0 else Contribution(s[0]) + TruncSum(s[1..])
  }

  function SumInts(xs: seq<int>): int {
    if xs == [] then 0 else xs[0] + SumInts(xs[1..])
  }

  /** The live path of average_rating: AVG(rating) over the rated reviews (nil, so 0.0, when there is none), rounded. */
  function LiveAverage(s: seq<Review>, p: int): real {
    if RatedCount(s) == 0 then 0.0 else RoundTo(RatedSum(s) / (RatedCount(s) as real), p)
  }

  /** The cached path of average_rating: ratings_total / ratings_count, rounded. */
  function CachedAverage(total: int, count: int, p: int): real
    requires count != 0
  {
    RoundTo((total as real) / (count as real), p)
  }

  // ----- How the aggregates react to the three changes a review collection sees -----

  /** The aggregates of two collections side by side add up. */
  lemma {:induction false} AggregatesAppend(a: seq<Review>, b: seq<Review>)
    ensures RatedSum(a + b) == RatedSum(a) + RatedSum(b)
    ensures RatedCount(a + b) == RatedCount(a) + RatedCount(b)
    ensures TruncSum(a + b) == TruncSum(a) + TruncSum(b)
  {
    if a == [] {
      assert a + b == b;
    } else {
      assert (a + b)[1..] == a[1..] + b;
      AggregatesAppend(a[1..], b);
    }
  }

  lemma {:induction false} SumIntsAppend(a: seq<int>, b: seq<int>)
    ensures SumInts(a + b) == SumInts(a) + SumInts(b)
  {
    if a == [] {
      assert a + b == b;
    } else {
      assert (a + b)[1..] == a[1..] + b;
      SumIntsAppend(a[1..], b);
    }
  }

  lemma AggregatesSingle(r: Review)
    ensures RatedSum([r]) == RatingOf(r) && TruncSum([r]) == Contribution(r)
    ensures RatedCount([r]) == if r.rating.Some? then 1 else 0
  {
    assert [r][1..] == [];
  }

  /** Removing the review at i takes exactly its own rating and contribution out of each aggregate. */
  lemma AggregatesRemove(s: seq<Review>, i: nat)
    requires i < |s|
    ensures var t := s[..i] + s[i + 1..];
      && RatedSum(t) == RatedSum(s) - RatingOf(s[i])
      && RatedCount(t) == RatedCount(s) - (if s[i].rating.Some? then 1 else 0)
      && TruncSum(t) == TruncSum(s) - Contribution(s[i])
  {
    assert s == s[..i] + ([s[i]] + s[i + 1..]);
    AggregatesAppend(s[..i], [s[i]] + s[i + 1..]);
    AggregatesAppend([s[i]], s[i + 1..]);
    AggregatesAppend(s[..i], s[i + 1..]);
    AggregatesSingle(s[i]);
  }

  /** Replacing the review at i swaps its rating for the new one in each aggregate. */
  lemma AggregatesReplace(s: seq<Review>, i: nat, r: Review)
    requires i < |s|
    ensures RatedSum(s[i := r]) == RatedSum(s) - RatingOf(s[i]) + RatingOf(r)
    ensures TruncSum(s[i := r]) == TruncSum(s) - Contribution(s[i]) + Contribution(r)
    ensures RatedCount(s[i := r]) ==
      RatedCount(s) - (if s[i].rating.Some? then 1 else 0) + (if r.rating.Some? then 1 else 0)
  {
    var t := s[i := r];
    assert t == s[..i] + ([r] + s[i + 1..]);
    assert t[..i] == s[..i] && t[i + 1..] == s[i + 1..];
    AggregatesRemove(s, i);
    AggregatesRemove(t, i);
  }

  lemma SumIntsRemove(xs: seq<int>, i: nat)
    requires i < |xs|
    ensures SumInts(xs[..i] + xs[i + 1..]) == SumInts(xs) - xs[i]
  {
    assert xs == xs[..i] + ([xs[i]] + xs[i + 1..]);
    SumIntsAppend(xs[..i], [xs[i]] + xs[i + 1..]);
    SumIntsAppend([xs[i]], xs[i + 1..]);
    SumIntsAppend(xs[..i], xs[i + 1..]);
    assert [xs[i]][1..] == [];
  }

  // ----- What the live average can be -----

  /** x added to itself k times: multiplication kept linear for the inductions below. */
  function Times(x: real, k: nat): real {
    if k == 0 then 0.0 else x + Times(x, k - 1)
  }

  lemma {:induction false} TimesIsProduct(x: real, k: nat)
    ensures Times(x, k) == x * (k as real)
  {
    if k > 0 {
      TimesIsProduct(x, k - 1);
      assert x * (k as real) == x * ((k - 1) as real) + x;
    }
  }

  lemma {:induction false} SumBetweenTimes(s: seq<Review>, lo: real, hi: real)
    requires forall i :: 0 <= i < |s| && s[i].rating.Some? ==> lo <= s[i].rating.value <= hi
    ensures Times(lo, RatedCount(s)) <= RatedSum(s) <= Times(hi, RatedCount(s))
  {
    if s != [] {
      var t := s[1..];
      assert forall i :: 0 <= i < |t| ==> t[i] == s[i + 1];
      SumBetweenTimes(t, lo, hi);
    }
  }

  /** Ratings between lo and hi have a sum between lo and hi times their number. */
  lemma {:induction false} SumBounds(s: seq<Review>, lo: real, hi: real)
    requires forall i :: 0 <= i < |s| && s[i].rating.Some? ==> lo <= s[i].rating.value <= hi
    ensures lo * (RatedCount(s) as real) <= RatedSum(s) <= hi * (RatedCount(s) as real)
  {
    SumBetweenTimes(s, lo, hi);
    TimesIsProduct(lo, RatedCount(s));
    TimesIsProduct(hi, RatedCount(s));
  }

  /**
   * When every rating lies between lo and hi, and rounding to p places
   * leaves lo and hi as they are, the live average is 0.0 for no ratings and
   * otherwise lies between lo and hi.
   */
  lemma {:induction false} LiveAverageWithin(s: seq<Review>, p: int, lo: real, hi: real)
    requires forall i :: 0 <= i < |s| && s[i].rating.Some? ==> lo <= s[i].rating.value <= hi
    requires RoundTo(lo, p) == lo && RoundTo(hi, p) == hi
    ensures RatedCount(s) == 0 ==> LiveAverage(s, p) == 0.0
    ensures RatedCount(s) > 0 ==> lo <= LiveAverage(s, p) <= hi
  {
    if RatedCount(s) > 0 {
      RatedMeanWithin(s, lo, hi);
      var m := RatedSum(s) / (RatedCount(s) as real);
      RoundToMonotone(lo, m, p);
      RoundToMonotone(m, hi, p);
    }
  }

  /** The unrounded mean of ratings between lo and hi lies between lo and hi. */
  lemma {:induction false} RatedMeanWithin(s: seq<Review>, lo: real, hi: real)
    requires forall i :: 0 <= i < |s| && s[i].rating.Some? ==> lo <= s[i].rating.value <= hi
    requires RatedCount(s) > 0
    ensures lo <= RatedSum(s) / (RatedCount(s) as real) <= hi
  {
    SumBounds(s, lo, hi);
    MeanBetween(RatedSum(s), RatedCount(s) as real, lo, hi);
  }

  lemma MeanBetween(sum: real, n: real, lo: real, hi: real)
    requires n > 0.0 && lo * n <= sum <= hi * n
    ensures lo <= sum / n <= hi
  {
    DivLe(lo * n, sum, n);
    DivLe(sum, hi * n, n);
    MulDivCancel(lo, n);
    MulDivCancel(hi, n);
  }

  /** Every review carries a rating that is a whole number. */
  predicate AllIntegral(s: seq<Review>) {
    forall i :: 0 <= i < |s| ==> s[i].rating.Some? && s[i].rating.value == (s[i].rating.value.Floor as real)
  }

  /** For whole-number ratings, present on every review, the cached counters equal the live aggregates. */
  lemma {:induction false} IntegralTruncSum(s: seq<Review>)
    requires AllIntegral(s)
    ensures TruncSum(s) as real == RatedSum(s)
    ensures RatedCount(s) == |s|
  {
    if s != [] {
      assert AllIntegral(s[1..]) by {
        forall i | 0 <= i < |s[1..]| ensures s[1..][i] == s[i + 1] {}
      }
      IntegralTruncSum(s[1..]);
      TruncSpec(s[0].rating.value);
    }
  }

  /**
   * Cache/live agreement: counters that equal the number of reviews and the
   * sum of their create-hook contributions give the live average, when every
   * rating is a whole number.
   */
  lemma CachedMatchesLive(s: seq<Review>, total: int, count: int, p: int)
    requires AllIntegral(s) && s != []
    requires count == |s| && total == TruncSum(s)
    ensures CachedAverage(total, count, p) == LiveAverage(s, p)
  {
    IntegralTruncSum(s);
  }

  /** The truncation makes the two paths disagree as soon as a rating has a fraction: one review rated 2.5. */
  lemma CachedDivergesOnFraction(r: Review)
    requires r.rating == Some(2.5)
    ensures TruncSum([r]) == 2 && RatedSum([r]) == 2.5
    ensures CachedAverage(TruncSum([r]), 1, 2) == 2.0 && LiveAverage([r], 2) == 2.5
  {
    AggregatesSingle(r);
    RoundToExact(2.0, 2, 200);
    RoundToExact(2.5, 2, 250);
  }
}
