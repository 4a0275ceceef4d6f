/**
 * The catalog the process starts with (app.py lines 8-69): six movies, ids
 * "1" to "6" in that insertion order, none rated or reviewed yet. The poster
 * links and the descriptions are left empty here. The views return them as
 * part of the record, but no operation's logic depends on them.
 */
module SeedCatalog {
  import opened Records
  import opened CatalogStore

  function SeedMovies(): seq<Movie>
  {
    [
      Movie("1", "The Shawshank Redemption", 1994, "Drama", "", "", [], []),
      Movie("2", "The Godfather", 1972, "Crime", "", "", [], []),
      Movie("3", "The Dark Knight", 2008, "Action", "", "", [], []),
      Movie("4", "Pulp Fiction", 1994, "Crime", "", "", [], []),
      Movie("5", "Forrest Gump", 1994, "Drama", "", "", [], []),
      Movie("6", "Inception", 2010, "Sci-Fi", "", "", [], [])
    ]
  }

  /** The seed has distinct ids "1" to "6", and no seeded movie has a rating or a review. */
  lemma SeedIsWellShaped()
    ensures IdsOf(SeedMovies()) == ["1", "2", "3", "4", "5", "6"]
    ensures Distinct(IdsOf(SeedMovies()))
    ensures forall i :: 0 <= i < |SeedMovies()| ==>
      WellFormed(SeedMovies()[i]) && SeedMovies()[i].ratings == [] && SeedMovies()[i].reviews == []
  {
  }
}
