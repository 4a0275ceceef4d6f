# Movie catalog: a verified model

This project models the core of a small movie-rating web service written with
Flask (`app.py`). The service keeps an in-memory catalog of movies keyed by id.
Each movie holds a list of ratings and a list of reviews. The service offers
five operations:

- list every movie with its rounded average rating, highest first;
- fetch one movie;
- rate a movie;
- review a movie, which also rates it;
- search titles and genres case-insensitively.

The model has one Dafny module per concern:

- `Optional` (`optional.dfy`): the `Option` type used for values a request
  may omit.
- `RatingAggregator` (`aggregator.dfy`): the mean of the ratings and Python's
  `round(x, 1)`, modelled as round-half-to-even on exact reals. The average
  of an empty list is `0`.
- `Validation` (`validation.dfy`): the rating check, the review-text check
  (Python's `str.strip`) and the default `"Anonymous"` reviewer name.
- `SearchMatcher` (`matcher.dfy`): ASCII lower-casing and substring search.
- `Records` (`records.dfy`): the stored records, the three views the read
  operations return (each adds its own derived fields), the four-digit review
  id, and the operation outcomes.
- `ListOrder` (`ordering.dfy`): the stable descending sort of the listing by
  average rating.
- `CatalogStore` (`catalog.dfy`): the class `Catalog`. Its field `records` is
  a map from ids to movies, which the rating and review methods update in
  place. `order` is the insertion order of the ids, which Python's dict
  iteration follows.
- `SeedCatalog` (`seed.dfy`): the six movies the service starts with.

A record is well formed when every stored rating lies in [1, 5]. `Catalog.Valid()`
holds each of these, and every method keeps it:

- the ids in `order` are distinct and are exactly the keys of `records`;
- each record carries its own key as its id;
- every record is well formed.

## Model

| member | source | states |
|---|---|---|
| RatingAggregator.AverageRating | app.py:84-90 | An empty list averages to 0. Otherwise the result is a whole number of tenths within 0.05 of the mean, and it lies in [1, 5] when every rating does. |
| RatingAggregator.RoundHalfEven | app.py:86 | The rounded integer is within 0.5 of its argument, and an exact half goes to the even neighbour, as Python's `round` does. |
| RatingAggregator.Round1 | app.py:86 | One-decimal rounding moves a value by at most 0.05, and the result is a whole number of tenths. |
| RatingAggregator.Sum | app.py:85 | `sum` of the ratings, added left to right; SumBounds and SumAppend give its meaning. |
| RatingAggregator.Mean | app.py:85 | The sum divided by the count, for a non-empty list; MeanInRange and MeanAfterAppend give its meaning. |
| RatingAggregator.SumBounds | app.py:85 | With n ratings in [1, 5], their sum lies between n and 5n. |
| RatingAggregator.MeanInRange | app.py:85 | The mean of ratings in [1, 5] lies in [1, 5]. |
| RatingAggregator.QuotientBounds | app.py:85 | A sum between n and 5n, divided by n, lies in [1, 5]. |
| RatingAggregator.RoundHalfEvenMonotone | app.py:86 | Rounding to an integer preserves order. |
| RatingAggregator.Round1Monotone | app.py:86 | One-decimal rounding preserves order, so it never reorders two means. |
| RatingAggregator.Round1OfTenths | app.py:86 | A value that already has one decimal comes back unchanged. |
| RatingAggregator.AverageInRange | app.py:133-137 | The rounded mean of ratings in [1, 5] is again in [1, 5]. |
| RatingAggregator.SumAppend | app.py:130-133 | Appending a rating adds it to the sum. |
| RatingAggregator.MeanAfterAppend | app.py:130-133 | After an append, the mean is the old sum plus the new rating, divided by the old count plus one. |
| RatingAggregator.TiesGoToEven | app.py:86 | Ratings 4, 4, 4, 5 average 4.25, an exact tie, and are reported as 4.2, as Python reports them. On exact reals 4.35 rounds to 4.4; Python's float for 4.35 lies just below the tie, so Python gives 4.3 (see Left out). |
| RatingAggregator.SmallAverages | app.py:133-137 | Worked cases: [5] gives 5, [5, 3] gives 4, [4] gives 4. |
| Validation.SourceRatingCheck | app.py:127 | The rating check as written, with Python's truthiness and NaN comparisons; SourceCheckAcceptsNaN shows it lets NaN through. |
| Validation.ValidRating | app.py:127 | The corrected rating check the store uses; ValidRatingAgreesWithSource proves it is the written check without NaN, that is, a number in [1, 5]. |
| Validation.SourceCheckAcceptsNaN | app.py:127 | The check as written lets NaN through (every comparison with NaN is false) and rejects 0. |
| Validation.ValidRatingAgreesWithSource | app.py:127 | A rating is accepted exactly when the check as written accepts it and it is not NaN, that is, exactly when it is a number in [1, 5]. |
| Validation.LeadingSpaces | app.py:152 | Counts the leading whitespace: every character before the count is whitespace, and the next one is not. |
| Validation.TrailingSpaces | app.py:152 | The mirror image of LeadingSpaces, for the end of the string. |
| Validation.Strip | app.py:152 | `str.strip()`: LeadingSpaces and TrailingSpaces fix what is removed, and StripEmptyIffBlank and StripTrimsBothEnds give the result's meaning. |
| Validation.StripEmptyIffBlank | app.py:152 | `strip()` leaves nothing exactly when the text is all whitespace. |
| Validation.StripTrimsBothEnds | app.py:152 | Stripped text that is non-empty starts and ends with a non-whitespace character. |
| Validation.ValidReviewText | app.py:152 | The review-text check as written; ValidReviewTextMeaning proves it accepts exactly present text with a non-whitespace character. |
| Validation.ValidReviewTextMeaning | app.py:152-153 | Review text is accepted exactly when it is present and contains a non-whitespace character. |
| Validation.ReviewerName | app.py:148 | A missing name becomes "Anonymous"; a given name is kept. |
| SearchMatcher.Lower | app.py:178 | Lower-casing keeps the length and maps every character on its own. |
| SearchMatcher.LowerIdempotent | app.py:178 | Lower-casing twice equals lower-casing once. |
| SearchMatcher.LowerHasNoUpper | app.py:178 | Lower-cased text has no upper-case letter. |
| SearchMatcher.Contains | app.py:185 | Python's substring test `in`; ContainsIff proves it holds exactly when the needle occurs at some index. |
| SearchMatcher.ContainsIff | app.py:185 | The substring test holds exactly when the needle occurs at some index of the haystack. |
| SearchMatcher.OccursAtLower | app.py:185 | An occurrence in the lower-cased strings is an occurrence that ignores case, and the other way round. |
| SearchMatcher.FieldMatches | app.py:185 | The lower-cased query is in the lower-cased field; FieldMatchesIff proves this is a case-insensitive occurrence. |
| SearchMatcher.FieldMatchesIff | app.py:178-185 | The lower-cased query is in the lower-cased field exactly when the query occurs in the field ignoring case. |
| SearchMatcher.FieldMatchesIgnoresCase | app.py:185 | Lower-casing a field beforehand does not change whether it matches. |
| Records.ListView | app.py:81-92 | The listing view: the record with its average, rating count and review count; ListMovies and ListViewsOccurrences use it. |
| Records.DetailView | app.py:106-114 | The single-movie view: the record with its average and rating count, no review count; GetMovie states its fields. |
| Records.SearchView | app.py:186-190 | The search view: the record with its average only; SearchMovies and SearchStep use it. |
| Records.IdString | app.py:159 | `str()` of a number in 1000..9999: four decimal digits, no leading zero, reading back as the number. |
| ListOrder.SortDesc | app.py:96 | The result of the stable `sort(key=..., reverse=True)`; SortSorted, SortPermutes, SortOccurrences and SortStable prove it sorted, a permutation and stable. |
| ListOrder.OccurrencesCons | app.py:96 | Counting a movie's views in a list with a view in front: that view counts once if it is the movie's, plus the count in the rest. |
| ListOrder.InsertPermutes | app.py:96 | Inserting one view into the sorted list is a permutation of the view in front of the list. |
| ListOrder.InsertOccurrences | app.py:96 | Inserting a view leaves each movie's view count as it was with the view in front. |
| ListOrder.SortPermutes | app.py:96 | The sorted listing is a permutation of the unsorted one. |
| ListOrder.SortOccurrences | app.py:96 | Sorting leaves each movie's view count unchanged. |
| ListOrder.InsertSorted | app.py:96 | Inserting into a non-increasing list keeps it non-increasing. |
| ListOrder.SortSorted | app.py:96 | The sorted listing is non-increasing in average rating. |
| ListOrder.WithKeyCons | app.py:96 | Views with a given average, taken from a list with a view in front: that view if its key matches, then those from the rest. |
| ListOrder.InsertKeepsTies | app.py:96 | Insertion puts the new view ahead of every view with the same average. |
| ListOrder.SortStable | app.py:96 | Sorting is stable: views with equal averages keep their catalog order. |
| CatalogStore.Matches | app.py:185 | A movie matches when its title or its genre contains the lower-cased query; FieldMatchesIff gives each half its case-insensitive meaning. |
| CatalogStore.ListViews | app.py:80-93 | One listing view per catalog id. |
| CatalogStore.MatchingIds | app.py:184-185 | The matching ids are catalog ids, and there are no more of them than ids. |
| CatalogStore.SearchViews | app.py:186-191 | One search view per matching id. |
| CatalogStore.MatchingIdsMembership | app.py:184-185 | An id is in the search hits exactly when it is in the catalog and its title or genre matches. |
| CatalogStore.MatchingIdsExact | app.py:184-185 | The search hits are exactly the matching catalog ids. |
| CatalogStore.MatchingIdsInOrder | app.py:184-191 | The hits keep the catalog order (they are a subsequence of it), with no id repeated. |
| CatalogStore.OccurrencesAppend | app.py:93 | Appending a view adds one to its movie's count and leaves the others. |
| CatalogStore.ListViewsOccurrences | app.py:80-93 | With distinct ids, the unsorted listing holds each catalog movie once and no other movie. |
| CatalogStore.PrefixAllIn | app.py:80 | A prefix of the catalog order holds only catalog ids. |
| CatalogStore.ListStep | app.py:80-93 | Each iteration of the listing loop appends that movie's view. |
| CatalogStore.SearchStep | app.py:184-191 | Each iteration of the search loop appends the movie's view exactly when it matches. |
| CatalogStore.Catalog.constructor | app.py:8-69 | A catalog built from seed movies with distinct ids is valid, follows the seed order, and stores each seed movie under its id. |
| CatalogStore.Catalog.ListMovies | app.py:76-98 | The listing is the stable descending sort of the per-movie views. It is non-increasing and a permutation of those views, ties keep catalog order, and each catalog movie appears exactly once. |
| CatalogStore.Catalog.GetMovie | app.py:101-116 | An unknown id is not found. A known id gives the record itself with its rating count and its average, which is 0 without ratings and otherwise in [1, 5]. |
| CatalogStore.Catalog.RateMovie | app.py:119-139 | An unknown id is not found, and an invalid rating is refused; neither changes the catalog. Otherwise the rating is appended to that movie only, and the result gives the rounded new average (in [1, 5]) and the new count. The catalog stays valid. |
| CatalogStore.Catalog.AddReview | app.py:142-173 | The checks run in order: unknown id, then missing or blank text, then invalid rating, and each failure leaves the catalog unchanged. Otherwise the review (four-digit id, name defaulting to "Anonymous", text, rating, timestamp) and its rating are appended to that movie only. The result gives the review and the new review count. The catalog stays valid. |
| CatalogStore.Catalog.SearchMovies | app.py:178-193 | An empty query gives no results. Otherwise the result is the search view of each catalog movie whose lower-cased title or genre contains the lower-cased query, in catalog order. |
| SeedCatalog.SeedMovies | app.py:8-69 | The six seed movies in insertion order; SeedIsWellShaped states their ids and empty lists. |
| SeedCatalog.SeedIsWellShaped | app.py:8-69 | The seed has ids "1" to "6", all distinct, and no movie in it has a rating or a review. |

## Left out

- HTTP plumbing is not modelled: routing, `jsonify`, status codes, the HTML index page, the `/health` endpoint and `app.run`. The three error statuses become the `Outcome` constructors `NotFound`, `InvalidRating` and `InvalidReview`.
- A request whose body is missing or is not a JSON object makes the source fail before validation. The model assumes a decoded object.
- Floating point is not modelled. Ratings and averages are exact reals. Python's `sum` adds binary floats one at a time, and `round` rounds the binary value, so a tie that is not exact in binary (such as 4.35) can round differently there.
- RatingAggregator.AverageRating: an empty list gives 0.0 where the source gives the integer 0. JSON encodes the two differently, but they are the same number.
- Validation.RatingInput has no case for JSON `Infinity` or `-Infinity`, which Python's decoder accepts as floats. The source refuses them by its range comparisons; the model refuses them when the caller passes them as `Other`, so the outcome is the same.
- Validation.RatingInput has no boolean case. JSON `true` passes the source check as the integer 1 and is stored as `True`; a caller of the model passes `Num(1.0)` for it. JSON `false` is falsy and is refused in both.
- Validation.ValidReviewText: review text that is truthy but not a string (a non-zero number, `true`, a non-empty list or object) makes the source fail at `strip()`. The model takes the text as `Option<string>` and does not capture that crash. Falsy non-strings (`0`, `false`, `[]`, `{}`) are refused by `not review_text`, as a missing text is.
- Validation.ReviewerName: a body with `"name": null` makes the source store `None` as the name, because the key is present; a non-string name is stored as given. `Option<string>` expresses neither, so a caller that maps null to `None` gets "Anonymous" where the source stores `None`.
- SearchMatcher.Lower and Validation.IsSpace cover ASCII upper-case letters and Python's whitespace characters only. Unicode case mapping beyond ASCII is not modelled.
- Records.IdString: the review id is a parameter of AddReview, the number drawn by `random.randint(1000, 9999)`. Nothing about the randomness, or about ids being unique, is claimed. The timestamp from `datetime.now().isoformat()` is also passed in as a string.
- ListOrder.SortDesc models the result of Python's stable `list.sort(reverse=True)` as an insertion sort on sequences. The in-place Timsort algorithm is not modelled.
- CatalogStore.Catalog.SearchMovies: its contract links the result to the specification functions MatchingIds and SearchViews. Membership and order of the hits are proved about those functions, by MatchingIdsExact and MatchingIdsInOrder, not restated on the method.
- CatalogStore.Catalog.GetMovie and ListMovies give `total_ratings` as the length of the ratings list. The source's two branches (with and without ratings) agree on that value.
- SeedCatalog.SeedMovies leaves the seed's poster URLs and descriptions as empty strings. The views return them as part of the record, but no operation's logic depends on them.
- Concurrent requests, which would share the dictionary across threads, are not modelled.

## Findings

| source | as written | input that shows it | evidently intended | confidence | as-written member | corrected member |
|---|---|---|---|---|---|---|
| app.py:127 (and the same check at app.py:155) | `not rating or not isinstance(...) or rating < 1 or rating > 5` lets a float NaN through: NaN is truthy, is a float, and every comparison with it is false | a request body `{"rating": NaN}`, which Python's JSON decoder accepts | refuse anything that is not a number in [1, 5] | not executed | Validation.SourceRatingCheck (SourceCheckAcceptsNaN) | Validation.ValidRating (ValidRatingAgreesWithSource) |

Once accepted, NaN would be stored and would make every later average of that
movie NaN. The store's methods use the corrected check, `Validation.ValidRating`,
so every stored rating lies in [1, 5].
