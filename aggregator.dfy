/**
 * The rating aggregator: the average rating and the rating count derived from
 * a movie's list of ratings. Ratings are exact reals; the source's
 * `round(x, 1)` is modelled as exact decimal rounding to one place with ties
 * going to the even neighbour.
 */
module RatingAggregator {

  /** A rating value the catalog accepts: 1 to 5, both ends included. */
  predicate InRange(v: real)
  {
    1.0 <= v <= 5.0
  }

  predicate AllInRange(rs: seq<real>)
  {
    forall i :: 0 <= i < |rs| ==> InRange(rs[i])
  }

  /** Left-to-right sum, as `sum(ratings)` adds them. */
  function Sum(rs: seq<real>): real
  {
    if rs == [] then 0.0 else Sum(rs[..|rs| - 1]) + rs[|rs| - 1]
  }

  function Mean(rs: seq<real>): real
    requires |rs| > 0
  {
    Sum(rs) / (|rs| as real)
  }

  /** The integer nearest to `x`; a value exactly halfway goes to the even one. */
  function RoundHalfEven(x: real): (n: int)
    ensures -0.5 <= n as real - x <= 0.5
    ensures n as real - x == 0.5 || n as real - x == -0.5 ==> n % 2 == 0
  {
    var f := x.Floor;
    var d := x - f as real;
    if d < 0.5 then f
    else if d > 0.5 then f + 1
    else if f % 2 == 0 then f
    else f + 1
  }

  /** `round(x, 1)`: the nearest multiple of 0.1, ties to an even last digit. */
  function Round1(x: real): (r: real)
    ensures -0.05 <= r - x <= 0.05
    ensures exists k: int {:trigger k as real} :: r == k as real / 10.0
  {
    var k := RoundHalfEven(x * 10.0);
    k as real / 10.0
  }

  /**
   * The average rating of a movie: 0 when it has no ratings, otherwise the
   * mean rounded to one decimal place.
   */
  function AverageRating(rs: seq<real>): (avg: real)
    ensures |rs| == 0 ==> avg == 0.0
    ensures |rs| > 0 ==> -0.05 <= avg - Mean(rs) <= 0.05
    ensures |rs| > 0 ==> exists k: int {:trigger k as real} :: avg == k as real / 10.0
    ensures |rs| > 0 && AllInRange(rs) ==> InRange(avg)
  {
    if |rs| == 0 then 0.0
    else
      MeanInRange(rs);
      AverageInRange(rs);
      Round1(Mean(rs))
  }

  lemma {:induction false} SumBounds(rs: seq<real>)
    requires AllInRange(rs)
    ensures |rs| as real <= Sum(rs) <= 5.0 * |rs| as real
  {
    if rs != [] {
      var init := rs[..|rs| - 1];
      assert AllInRange(init) by {
        forall i | 0 <= i < |init| ensures InRange(init[i]) {
          assert init[i] == rs[i];
        }
      }
      SumBounds(init);
      assert InRange(rs[|rs| - 1]);
    }
  }

  /** The mean of ratings that are all in range is itself in range. */
  lemma MeanInRange(rs: seq<real>)
    requires |rs| > 0
    ensures AllInRange(rs) ==> InRange(Mean(rs))
  {
    if AllInRange(rs) {
      SumBounds(rs);
      QuotientBounds(Sum(rs), |rs| as real);
    }
  }

  lemma QuotientBounds(a: real, n: real)
    requires n > 0.0 && n <= a <= 5.0 * n
    ensures 1.0 <= a / n <= 5.0
  {
    var q := a / n;
    assert q * n == a;
    assert (q - 1.0) * n == a - n;
    assert (5.0 - q) * n == 5.0 * n - a;
  }

  lemma RoundHalfEvenMonotone(x: real, y: real)
    requires x <= y
    ensures RoundHalfEven(x) <= RoundHalfEven(y)
  {
  }

  lemma Round1Monotone(x: real, y: real)
    requires x <= y
    ensures Round1(x) <= Round1(y)
  {
    RoundHalfEvenMonotone(x * 10.0, y * 10.0);
  }

  /** A value that already has one decimal place is left as it is. */
  lemma Round1OfTenths(k: int)
    ensures Round1(k as real / 10.0) == k as real / 10.0
  {
    assert (k as real / 10.0) * 10.0 == k as real;
  }

  /** Rounding cannot push an in-range mean out of [1, 5]. */
  lemma AverageInRange(rs: seq<real>)
    requires |rs| > 0
    ensures AllInRange(rs) ==> InRange(Round1(Mean(rs)))
  {
    if AllInRange(rs) {
      MeanInRange(rs);
      Round1OfTenths(10);
      Round1OfTenths(50);
      Round1Monotone(1.0, Mean(rs));
      Round1Monotone(Mean(rs), 5.0);
    }
  }

  /** Appending a rating adds it to the running sum. */
  lemma SumAppend(rs: seq<real>, v: real)
    ensures Sum(rs + [v]) == Sum(rs) + v
  {
    assert (rs + [v])[..|rs|] == rs;
  }

  /** After one more rating, the mean is the extended sum over one more count. */
  lemma MeanAfterAppend(rs: seq<real>, v: real)
    ensures Mean(rs + [v]) == (Sum(rs) + v) / ((|rs| + 1) as real)
  {
    var ext := rs + [v];
    assert Sum(ext) == Sum(rs) + v by {
      SumAppend(rs, v);
    }
    assert |ext| as real == (|rs| + 1) as real;
  }

  /**
   * Exact halves round to an even last digit. 4.25 is exact in binary too, so
   * the model and Python both report 4.2. For 4.35 the model's exact-real
   * answer is 4.4; Python's float nearest 4.35 lies just below it, so its
   * `round(4.35, 1)` gives 4.3.
   */
  lemma TiesGoToEven()
    ensures AverageRating([4.0, 4.0, 4.0, 5.0]) == 4.2
    ensures Round1(4.35) == 4.4
  {
    var rs := [4.0, 4.0, 4.0, 5.0];
    assert rs[..3] == [4.0, 4.0, 4.0] && [4.0, 4.0, 4.0][..2] == [4.0, 4.0];
    assert Sum([4.0, 4.0]) == 8.0;
    assert Sum([4.0, 4.0, 4.0]) == 12.0;
    assert Sum(rs) == 17.0;
    assert (42.5).Floor == 42;
    assert (43.5).Floor == 43;
  }

  /** A single 5 averages 5.0; a 5 and a 3 average 4.0; a single 4 averages 4.0. */
  lemma SmallAverages()
    ensures AverageRating([5.0]) == 5.0
    ensures AverageRating([5.0, 3.0]) == 4.0
    ensures AverageRating([4.0]) == 4.0
  {
    assert [5.0, 3.0][..1] == [5.0];
    assert Sum([5.0]) == 5.0 && Sum([5.0, 3.0]) == 8.0 && Sum([4.0]) == 4.0;
    Round1OfTenths(50);
    Round1OfTenths(40);
  }
}
