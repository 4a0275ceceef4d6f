/**
 * The records of the catalog (the shape of `movies_db`, app.py lines 8-69 and
 * the review dictionary of lines 158-164), the views the read operations
 * return, and the outcomes of the store's operations.
 */
module Records {
  import opened Optional
  import opened RatingAggregator

  /** One review as stored in a movie's `reviews` list. */
  datatype Review = Review(id: string, name: string, text: string, rating: real, timestamp: string)

  /** One entry of the catalog. `ratings` and `reviews` only ever grow at the end. */
  datatype Movie = Movie(
    id: string,
    title: string,
    year: int,
    genre: string,
    poster: string,
    description: string,
    ratings: seq<real>,
    reviews: seq<Review>)

  /** Every stored rating, standalone or attached to a review, lies in [1, 5]. */
  predicate WellFormed(m: Movie)
  {
    AllInRange(m.ratings) && forall k :: 0 <= k < |m.reviews| ==> InRange(m.reviews[k].rating)
  }

  /**
   * A copy of a record with the derived fields the read operations attach:
   * `average_rating` always, `total_ratings` and `total_reviews` only where
   * the operation adds them.
   */
  datatype MovieView = MovieView(
    movie: Movie,
    averageRating: real,
    totalRatings: Option<nat>,
    totalReviews: Option<nat>)

  /** What a successful rating returns: the new average and the new count. */
  datatype RatingSummary = RatingSummary(averageRating: real, totalRatings: nat)

  /** What a successful review returns: the stored review and the new review count. */
  datatype ReviewResult = ReviewResult(review: Review, totalReviews: nat)

  /** The result of a store operation: one of the three failures or a payload. */
  datatype Outcome<T> = NotFound | InvalidRating | InvalidReview | Ok(value: T)

  /** The view of the full listing (app.py lines 81-92). */
  function ListView(m: Movie): MovieView
  {
    MovieView(m, AverageRating(m.ratings), Some(|m.ratings|), Some(|m.reviews|))
  }

  /** The view of the single-movie endpoint (app.py lines 106-114): no review count. */
  function DetailView(m: Movie): MovieView
  {
    MovieView(m, AverageRating(m.ratings), Some(|m.ratings|), None)
  }

  /** The view of a search hit (app.py lines 186-190): only the average. */
  function SearchView(m: Movie): MovieView
  {
    MovieView(m, AverageRating(m.ratings), None, None)
  }

  function DigitChar(d: int): char
    requires 0 <= d <= 9
  {
    ('0' as int + d) as char
  }

  /** The number a string of decimal digits denotes. */
  function DecimalValue(s: string): int
  {
    if s == [] then 0 else DecimalValue(s[..|s| - 1]) * 10 + (s[|s| - 1] as int - '0' as int)
  }

  /**
   * `str(random.randint(1000, 9999))` for the number drawn (app.py line 159):
   * four decimal digits, no leading zero, denoting that number.
   */
  function IdString(n: int): (s: string)
    requires 1000 <= n <= 9999
    ensures |s| == 4 && s[0] != '0'
    ensures forall i :: 0 <= i < |s| ==> '0' <= s[i] <= '9'
    ensures DecimalValue(s) == n
  {
    var a, r := n / 1000, n % 1000;
    var b, r' := r / 100, r % 100;
    var c, d := r' / 10, r' % 10;
    assert n == 1000 * a + r && r == 100 * b + r' && r' == 10 * c + d;
    var s := [DigitChar(a), DigitChar(b), DigitChar(c), DigitChar(d)];
    assert DecimalValue(s[..1]) == a by {
      assert s[..1][..0] == [];
    }
    assert DecimalValue(s[..2]) == a * 10 + b by {
      assert s[..2][..1] == s[..1];
    }
    assert DecimalValue(s[..3]) == (a * 10 + b) * 10 + c by {
      assert s[..3][..2] == s[..2];
    }
    assert DecimalValue(s) == ((a * 10 + b) * 10 + c) * 10 + d by {
      assert s[..3] == s[..|s| - 1];
    }
    assert ((a * 10 + b) * 10 + c) * 10 + d == n;
    s
  }
}
