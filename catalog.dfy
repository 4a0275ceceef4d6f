/**
 * The catalog store: the module-level `movies_db` dictionary of app.py and the
 * five route handlers that read or append to it, with the HTTP layer removed.
 * The dictionary's keys, in insertion order, are `order`; the records are
 * `records`. No operation adds or removes a movie.
 */
module CatalogStore {
  import opened Optional
  import opened RatingAggregator
  import opened Validation
  import opened SearchMatcher
  import opened Records
  import opened ListOrder

  predicate Distinct(ids: seq<string>)
  {
    forall i, j :: 0 <= i < j < |ids| ==> ids[i] != ids[j]
  }

  /**
   * The shape of the catalog: each id once in the insertion order, exactly
   * the ids of the map, each record filed under its own id, every stored
   * rating in [1, 5].
   */
  ghost predicate CatalogShape(order: seq<string>, db: map<string, Movie>)
  {
    Distinct(order)
    && (forall id :: id in db <==> id in order)
    && (forall id :: id in db ==> db[id].id == id && WellFormed(db[id]))
  }

  /** The ids of a list of records, in order. */
  function IdsOf(ms: seq<Movie>): seq<string>
  {
    seq(|ms|, i requires 0 <= i < |ms| => ms[i].id)
  }

  predicate AllIn(ids: seq<string>, db: map<string, Movie>)
  {
    forall i :: 0 <= i < |ids| ==> ids[i] in db
  }

  /** The list `get_movies` builds before sorting: one listing view per id, in the given order. */
  function ListViews(ids: seq<string>, db: map<string, Movie>): (vs: seq<MovieView>)
    requires AllIn(ids, db)
    ensures |vs| == |ids|
  {
    if ids == [] then [] else ListViews(ids[..|ids| - 1], db) + [ListView(db[ids[|ids| - 1]])]
  }

  /** The search test for one record (app.py line 185). */
  predicate Matches(loweredQuery: string, m: Movie)
  {
    FieldMatches(loweredQuery, m.title) || FieldMatches(loweredQuery, m.genre)
  }

  /** The ids among `ids` whose record matches, in the order of `ids`. */
  function MatchingIds(loweredQuery: string, ids: seq<string>, db: map<string, Movie>): (r: seq<string>)
    requires AllIn(ids, db)
    ensures AllIn(r, db) && |r| <= |ids|
  {
    if ids == [] then []
    else
      var last := ids[|ids| - 1];
      MatchingIds(loweredQuery, ids[..|ids| - 1], db)
      + (if Matches(loweredQuery, db[last]) then [last] else [])
  }

  /** One search view per id. */
  function SearchViews(ids: seq<string>, db: map<string, Movie>): (vs: seq<MovieView>)
    requires AllIn(ids, db)
    ensures |vs| == |ids|
  {
    if ids == [] then [] else SearchViews(ids[..|ids| - 1], db) + [SearchView(db[ids[|ids| - 1]])]
  }

  /** `a` is `b` with some elements left out, the rest kept in order. */
  predicate SubsequenceOf(a: seq<string>, b: seq<string>)
    decreases |b|
  {
    if a == [] then true
    else if b == [] then false
    else if a[|a| - 1] == b[|b| - 1] then SubsequenceOf(a[..|a| - 1], b[..|b| - 1])
    else SubsequenceOf(a, b[..|b| - 1])
  }

  lemma {:induction false} MatchingIdsMembership(lq: string, ids: seq<string>, db: map<string, Movie>, id: string)
    requires AllIn(ids, db)
    ensures id in MatchingIds(lq, ids, db) <==> id in ids && Matches(lq, db[id])
  {
    if ids != [] {
      var init := ids[..|ids| - 1];
      MatchingIdsMembership(lq, init, db, id);
      assert ids == init + [ids[|ids| - 1]];
    }
  }

  /** The search keeps exactly the matching ids. */
  lemma MatchingIdsExact(lq: string, ids: seq<string>, db: map<string, Movie>)
    requires AllIn(ids, db)
    ensures forall id :: id in MatchingIds(lq, ids, db) <==> id in ids && Matches(lq, db[id])
  {
    forall id {
      MatchingIdsMembership(lq, ids, db, id);
    }
  }

  /** The search keeps the ids in catalog order, each at most once. */
  lemma {:induction false} MatchingIdsInOrder(lq: string, ids: seq<string>, db: map<string, Movie>)
    requires AllIn(ids, db) && Distinct(ids)
    ensures SubsequenceOf(MatchingIds(lq, ids, db), ids)
    ensures Distinct(MatchingIds(lq, ids, db))
  {
    if ids != [] {
      var init, last := ids[..|ids| - 1], ids[|ids| - 1];
      var r := MatchingIds(lq, init, db);
      MatchingIdsInOrder(lq, init, db);
      MatchingIdsMembership(lq, init, db, last);
      assert last !in init;
      if Matches(lq, db[last]) {
        assert MatchingIds(lq, ids, db) == r + [last];
        assert (r + [last])[..|r|] == r;
        assert forall i :: 0 <= i < |r| ==> r[i] in r;
      } else {
        assert MatchingIds(lq, ids, db) == r;
        if r != [] {
          assert r[|r| - 1] in r;
        }
      }
    }
  }

  lemma {:induction false} OccurrencesAppend(a: seq<MovieView>, v: MovieView, id: string)
    ensures Occurrences(a + [v], id) == Occurrences(a, id) + (if v.movie.id == id then 1 else 0)
  {
    if a != [] {
      OccurrencesAppend(a[1..], v, id);
      assert (a + [v])[1..] == a[1..] + [v];
    }
  }

  /** The unsorted listing holds exactly one view of each catalog movie. */
  lemma {:induction false} ListViewsOccurrences(ids: seq<string>, db: map<string, Movie>, id: string)
    requires AllIn(ids, db) && Distinct(ids)
    requires forall k :: k in db ==> db[k].id == k
    ensures Occurrences(ListViews(ids, db), id) == if id in ids then 1 else 0
  {
    if ids != [] {
      var init, last := ids[..|ids| - 1], ids[|ids| - 1];
      assert Distinct(init);
      ListViewsOccurrences(init, db, id);
      OccurrencesAppend(ListViews(init, db), ListView(db[last]), id);
      assert ids == init + [last];
      assert last !in init;
    }
  }

  lemma PrefixAllIn(ids: seq<string>, db: map<string, Movie>, i: int)
    requires AllIn(ids, db) && 0 <= i <= |ids|
    ensures AllIn(ids[..i], db)
  {
  }

  /** One more id of the catalog order adds its listing view. */
  lemma ListStep(ids: seq<string>, db: map<string, Movie>, i: int)
    requires AllIn(ids, db) && 0 <= i < |ids|
    ensures AllIn(ids[..i], db) && AllIn(ids[..i + 1], db)
    ensures ListViews(ids[..i + 1], db) == ListViews(ids[..i], db) + [ListView(db[ids[i]])]
  {
    assert ids[..i + 1][..i] == ids[..i];
  }

  /** One more id of the catalog order adds its search view exactly when it matches. */
  lemma SearchStep(lq: string, ids: seq<string>, db: map<string, Movie>, i: int)
    requires AllIn(ids, db) && 0 <= i < |ids|
    ensures AllIn(ids[..i], db) && AllIn(ids[..i + 1], db)
    ensures SearchViews(MatchingIds(lq, ids[..i + 1], db), db)
      == SearchViews(MatchingIds(lq, ids[..i], db), db)
         + (if Matches(lq, db[ids[i]]) then [SearchView(db[ids[i]])] else [])
  {
    var ext, x := ids[..i + 1], ids[i];
    assert ext[..|ext| - 1] == ids[..i];
    var hits := MatchingIds(lq, ids[..i], db);
    assert MatchingIds(lq, ext, db) == hits + (if Matches(lq, db[x]) then [x] else []);
    if Matches(lq, db[x]) {
      assert (hits + [x])[..|hits|] == hits;
      assert SearchViews(hits + [x], db) == SearchViews(hits, db) + [SearchView(db[x])];
    } else {
      assert MatchingIds(lq, ext, db) == hits;
    }
  }

  class Catalog {
    /** The movie ids in the dictionary's insertion order; fixed when the catalog is seeded. */
    const order: seq<string>
    /** `movies_db`: the record filed under each id. */
    var records: map<string, Movie>

    ghost predicate Valid()
      reads this
    {
      CatalogShape(order, records)
    }

    /**
     * Seeds the catalog from the records of the dictionary literal of app.py
     * lines 8-69, in their insertion order.
     */
    constructor (seed: seq<Movie>)
      requires Distinct(IdsOf(seed))
      requires forall i :: 0 <= i < |seed| ==> WellFormed(seed[i])
      ensures Valid() && order == IdsOf(seed)
      ensures forall i :: 0 <= i < |seed| ==> seed[i].id in records && records[seed[i].id] == seed[i]
    {
      var ids := IdsOf(seed);
      var db: map<string, Movie> := map[];
      var i := 0;
      while i < |seed|
        invariant 0 <= i <= |seed|
        invariant forall id :: id in db <==> id in ids[..i]
        invariant forall j :: 0 <= j < i ==> db[ids[j]] == seed[j]
      {
        db := db[ids[i] := seed[i]];
        i := i + 1;
      }
      assert ids[..i] == ids;
      assert forall j :: 0 <= j < |seed| ==> ids[j] == seed[j].id;
      order := ids;
      records := db;
    }

    /**
     * `get_movies`: every movie once, as a listing view, highest average
     * first, movies with equal averages in catalog order. Reads only.
     */
    method ListMovies() returns (views: seq<MovieView>)
      requires Valid()
      ensures views == SortDesc(ListViews(order, records))
      ensures SortedDesc(views)
      ensures forall k :: WithKey(views, k) == WithKey(ListViews(order, records), k)
      ensures multiset(views) == multiset(ListViews(order, records))
      ensures forall id :: Occurrences(views, id) == if id in records then 1 else 0
    {
      assert AllIn(order, records);
      var built: seq<MovieView> := [];
      var i := 0;
      PrefixAllIn(order, records, 0);
      while i < |order|
        invariant 0 <= i <= |order|
        invariant AllIn(order[..i], records)
        invariant built == ListViews(order[..i], records)
      {
        ListStep(order, records, i);
        built := built + [ListView(records[order[i]])];
        i := i + 1;
      }
      assert order[..i] == order;
      views := SortDesc(built);
      SortSorted(built);
      SortPermutes(built);
      forall k ensures WithKey(views, k) == WithKey(built, k) {
        SortStable(built, k);
      }
      forall id ensures Occurrences(views, id) == if id in records then 1 else 0 {
        SortOccurrences(built, id);
        ListViewsOccurrences(order, records, id);
      }
    }

    /** `get_movie`: the detail view of one movie, or NotFound. Reads only. */
    method GetMovie(id: string) returns (res: Outcome<MovieView>)
      requires Valid()
      ensures id !in records <==> res == NotFound
      ensures id in records ==> res == Ok(DetailView(records[id]))
      ensures res.Ok? ==> res.value.movie == records[id]
      ensures res.Ok? ==> res.value.totalRatings == Some(|records[id].ratings|)
      ensures res.Ok? ==>
        if records[id].ratings == [] then res.value.averageRating == 0.0
        else InRange(res.value.averageRating)
    {
      if id !in records {
        return NotFound;
      }
      res := Ok(DetailView(records[id]));
    }

    /**
     * `rate_movie`: an unknown id is NotFound and an invalid rating is
     * InvalidRating, both with the catalog unchanged; otherwise the rating is
     * appended to that movie's ratings and nothing else changes.
     */
    method RateMovie(id: string, rating: RatingInput) returns (res: Outcome<RatingSummary>)
      requires Valid()
      modifies this
      ensures Valid()
      ensures id !in old(records) ==> res == NotFound && records == old(records)
      ensures id in old(records) && !ValidRating(rating) ==>
        res == InvalidRating && records == old(records)
      ensures id in old(records) && ValidRating(rating) ==>
        var m := old(records)[id];
        var rs := m.ratings + [rating.v];
        records == old(records)[id := m.(ratings := rs)]
        && res == Ok(RatingSummary(AverageRating(rs), |m.ratings| + 1))
        && InRange(res.value.averageRating)
    {
      if id !in records {
        return NotFound;
      }
      if !ValidRating(rating) {
        return InvalidRating;
      }
      var m := records[id];
      records := records[id := m.(ratings := m.ratings + [rating.v])];
      var rs := records[id].ratings;
      res := Ok(RatingSummary(Round1(Mean(rs)), |rs|));
    }

    /**
     * `add_review`: NotFound for an unknown id, then InvalidReview for blank
     * text, then InvalidRating, each with the catalog unchanged; otherwise
     * one review is appended to the movie's reviews and its rating to the
     * movie's ratings. `idNumber` is the number `random.randint(1000, 9999)`
     * drew and `timestamp` the clock reading.
     */
    method AddReview(id: string, name: Option<string>, text: Option<string>, rating: RatingInput,
                     idNumber: int, timestamp: string)
      returns (res: Outcome<ReviewResult>)
      requires Valid()
      requires 1000 <= idNumber <= 9999
      modifies this
      ensures Valid()
      ensures id !in old(records) ==> res == NotFound && records == old(records)
      ensures id in old(records) && !ValidReviewText(text) ==>
        res == InvalidReview && records == old(records)
      ensures id in old(records) && ValidReviewText(text) && !ValidRating(rating) ==>
        res == InvalidRating && records == old(records)
      ensures id in old(records) && ValidReviewText(text) && ValidRating(rating) ==>
        var m := old(records)[id];
        var review := Review(IdString(idNumber), ReviewerName(name), text.value, rating.v, timestamp);
        records == old(records)[id := m.(reviews := m.reviews + [review], ratings := m.ratings + [rating.v])]
        && res == Ok(ReviewResult(review, |m.reviews| + 1))
        && res.value.review.rating == records[id].ratings[|records[id].ratings| - 1]
    {
      if id !in records {
        return NotFound;
      }
      if !ValidReviewText(text) {
        return InvalidReview;
      }
      if !ValidRating(rating) {
        return InvalidRating;
      }
      var review := Review(IdString(idNumber), ReviewerName(name), text.value, rating.v, timestamp);
      var m := records[id];
      m := m.(reviews := m.reviews + [review]);
      m := m.(ratings := m.ratings + [rating.v]);
      records := records[id := m];
      res := Ok(ReviewResult(review, |records[id].reviews|));
    }

    /**
     * `search_movies`: nothing for an empty query; otherwise the search view
     * of every movie whose title or genre contains the query, ignoring case,
     * in catalog order. Reads only.
     */
    method SearchMovies(query: string) returns (results: seq<MovieView>)
      requires Valid()
      ensures query == "" ==> results == []
      ensures query != "" ==> results == SearchViews(MatchingIds(Lower(query), order, records), records)
    {
      var q := Lower(query);
      if q == "" {
        return [];
      }
      assert AllIn(order, records);
      results := [];
      var i := 0;
      PrefixAllIn(order, records, 0);
      while i < |order|
        invariant 0 <= i <= |order|
        invariant AllIn(order[..i], records)
        invariant results == SearchViews(MatchingIds(q, order[..i], records), records)
      {
        var movie := records[order[i]];
        SearchStep(q, order, records, i);
        if Matches(q, movie) {
          results := results + [SearchView(movie)];
        }
        i := i + 1;
      }
      assert order[..i] == order;
    }
  }
}
