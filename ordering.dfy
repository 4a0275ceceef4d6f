/**
 * The order of the full listing: `sort(key=average_rating, reverse=True)`
 * (app.py line 96), a stable sort from the highest average to the lowest.
 * It is modelled as an insertion sort whose result is characterised by three
 * lemmas: it is a permutation, it is non-increasing, and views with equal
 * averages keep their relative order.
 */
module ListOrder {
  import opened Records

  function Key(v: MovieView): real
  {
    v.averageRating
  }

  /** Puts `v` before the first view whose average is not above its own. */
  function InsertDesc(v: MovieView, s: seq<MovieView>): seq<MovieView>
  {
    if s == [] then [v]
    else if Key(v) >= Key(s[0]) then [v] + s
    else [s[0]] + InsertDesc(v, s[1..])
  }

  function SortDesc(s: seq<MovieView>): seq<MovieView>
  {
    if s == [] then [] else InsertDesc(s[0], SortDesc(s[1..]))
  }

  predicate SortedDesc(s: seq<MovieView>)
  {
    forall i, j :: 0 <= i < j < |s| ==> Key(s[i]) >= Key(s[j])
  }

  /** The views whose average is `k`, in their order in `s`. */
  function WithKey(s: seq<MovieView>, k: real): seq<MovieView>
  {
    if s == [] then []
    else (if Key(s[0]) == k then [s[0]] else []) + WithKey(s[1..], k)
  }

  /** How many views in `s` are of the movie with id `id`. */
  function Occurrences(s: seq<MovieView>, id: string): nat
  {
    if s == [] then 0 else (if s[0].movie.id == id then 1 else 0) + Occurrences(s[1..], id)
  }

  lemma OccurrencesCons(v: MovieView, s: seq<MovieView>, id: string)
    ensures Occurrences([v] + s, id) == (if v.movie.id == id then 1 else 0) + Occurrences(s, id)
  {
    assert ([v] + s)[1..] == s;
  }

  lemma {:induction false} InsertPermutes(v: MovieView, s: seq<MovieView>)
    ensures multiset(InsertDesc(v, s)) == multiset([v] + s)
  {
    if s != [] && Key(v) < Key(s[0]) {
      var t := s[1..];
      var ins := InsertDesc(v, t);
      assert InsertDesc(v, s) == [s[0]] + ins;
      assert multiset(ins) == multiset([v] + t) by {
        InsertPermutes(v, t);
      }
      assert [v] + s == [v] + ([s[0]] + t);
    }
  }

  lemma {:induction false} InsertOccurrences(v: MovieView, s: seq<MovieView>, id: string)
    ensures Occurrences(InsertDesc(v, s), id) == Occurrences([v] + s, id)
  {
    if s == [] {
    } else if Key(v) >= Key(s[0]) {
    } else {
      var t := s[1..];
      InsertOccurrences(v, t, id);
      OccurrencesCons(s[0], InsertDesc(v, t), id);
      OccurrencesCons(v, t, id);
      OccurrencesCons(v, s, id);
    }
  }

  /** The sort only rearranges: the same views with the same multiplicities. */
  lemma {:induction false} SortPermutes(s: seq<MovieView>)
    ensures multiset(SortDesc(s)) == multiset(s)
  {
    if s != [] {
      var t := SortDesc(s[1..]);
      assert multiset(t) == multiset(s[1..]) by {
        SortPermutes(s[1..]);
      }
      assert multiset(InsertDesc(s[0], t)) == multiset([s[0]] + t) by {
        InsertPermutes(s[0], t);
      }
      assert s == [s[0]] + s[1..];
    }
  }

  /** So every movie occurs in the sorted listing exactly as often as before. */
  lemma {:induction false} SortOccurrences(s: seq<MovieView>, id: string)
    ensures Occurrences(SortDesc(s), id) == Occurrences(s, id)
  {
    if s != [] {
      var t := SortDesc(s[1..]);
      SortOccurrences(s[1..], id);
      InsertOccurrences(s[0], t, id);
      OccurrencesCons(s[0], t, id);
    }
  }

  lemma {:induction false} InsertSorted(v: MovieView, s: seq<MovieView>)
    requires SortedDesc(s)
    ensures SortedDesc(InsertDesc(v, s))
  {
    if s != [] && Key(v) < Key(s[0]) {
      InsertSorted(v, s[1..]);
      InsertPermutes(v, s[1..]);
      var t := InsertDesc(v, s[1..]);
      forall j | 0 <= j < |t| ensures Key(s[0]) >= Key(t[j]) {
        assert t[j] in multiset([v] + s[1..]);
        if t[j] != v {
          assert t[j] in s[1..];
        }
      }
    }
  }

  /** The listing order is non-increasing in the average rating. */
  lemma {:induction false} SortSorted(s: seq<MovieView>)
    ensures SortedDesc(SortDesc(s))
  {
    if s != [] {
      SortSorted(s[1..]);
      InsertSorted(s[0], SortDesc(s[1..]));
    }
  }

  lemma WithKeyCons(v: MovieView, s: seq<MovieView>, k: real)
    ensures WithKey([v] + s, k) == (if Key(v) == k then [v] else []) + WithKey(s, k)
  {
    assert ([v] + s)[1..] == s;
  }

  lemma {:induction false} InsertKeepsTies(v: MovieView, s: seq<MovieView>, k: real)
    ensures WithKey(InsertDesc(v, s), k) == (if Key(v) == k then [v] else []) + WithKey(s, k)
  {
    if s == [] {
      WithKeyCons(v, [], k);
    } else if Key(v) >= Key(s[0]) {
      WithKeyCons(v, s, k);
    } else {
      InsertKeepsTies(v, s[1..], k);
      WithKeyCons(s[0], InsertDesc(v, s[1..]), k);
      WithKeyCons(s[0], s[1..], k);
      assert s == [s[0]] + s[1..];
    }
  }

  /** Stability: views with the same average appear in the order they had before sorting. */
  lemma {:induction false} SortStable(s: seq<MovieView>, k: real)
    ensures WithKey(SortDesc(s), k) == WithKey(s, k)
  {
    if s != [] {
      SortStable(s[1..], k);
      InsertKeepsTies(s[0], SortDesc(s[1..]), k);
    }
  }
}
